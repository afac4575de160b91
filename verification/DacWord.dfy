/** The half-words of srcs/Dac.cpp, one for each of two DAC chips, and the word that carries both. */
module DacWord {

  type Half = bv16

  function TagBits(chipChannel: nat): Half {
    if chipChannel % 4 == 0 then 0 else if chipChannel % 4 == 1 then 0x4000
    else if chipChannel % 4 == 2 then 0x8000 else 0xC000
  }

  function Low12(value: bv32): Half { (value & 0xFFF) as bv16 }

  /** What a DAC holds: gain and buffer flags and 12 bits of level. */
  function Level(value: bv32, gain: bool, buffer: bool): Half {
    (if gain then 0x2000 else 0) | (if buffer then 0x1000 else 0) | Low12(value)
  }

  function Encode(chipChannel: nat, value: bv32, gain: bool, buffer: bool): Half {
    TagBits(chipChannel) | Level(value, gain, buffer)
  }

  /** How a chip reads a half-word: the top two bits address one of its four DACs. */
  function Tag(h: Half): (t: nat)
    ensures t < 4
  {
    if h & 0xC000 == 0 then 0 else if h & 0xC000 == 0x4000 then 1 else if h & 0xC000 == 0x8000 then 2 else 3
  }

  function Payload(h: Half): Half { h & 0x3FFF }

  lemma Low12Is(value: bv32)
    ensures Low12(value) as bv32 == value & 0xFFF && Low12(value) & 0xF000 == 0
  {
  }

  /** A level bit by bit: 12 bits of value, buffer in bit 12, gain in bit 13. */
  lemma LevelLayout(value: bv32, gain: bool, buffer: bool)
    ensures var l := Level(value, gain, buffer);
      && l & 0x0FFF == Low12(value) && Low12(value) as bv32 == value & 0xFFF
      && (l & 0x1000 != 0 <==> buffer) && (l & 0x2000 != 0 <==> gain) && l & 0xC000 == 0
  {
    Low12Is(value);
    hide Low12;
    FlagsAbove(Low12(value), if gain then 0x2000 else 0, if buffer then 0x1000 else 0);
  }

  lemma FlagsAbove(x: Half, gain: Half, buffer: Half)
    requires x & 0xF000 == 0 && (gain == 0 || gain == 0x2000) && (buffer == 0 || buffer == 0x1000)
    ensures var l := gain | buffer | x;
      && l & 0x0FFF == x && l & 0x1000 == buffer && l & 0x2000 == gain && l & 0xC000 == 0
  {
  }

  /** The DAC's number stands above the level, in bits 14 and 15. */
  lemma HalfWordLayout(chipChannel: nat, value: bv32, gain: bool, buffer: bool)
    requires chipChannel < 4
    ensures var h := Encode(chipChannel, value, gain, buffer);
      && h & 0x3FFF == Level(value, gain, buffer)
      && h >> 14 == (match chipChannel case 0 => 0 case 1 => 1 case 2 => 2 case 3 => 3)
  {
    LevelLayout(value, gain, buffer);
    hide Level, Low12;
    TagAbove(TagBits(chipChannel), Level(value, gain, buffer));
  }

  lemma TagAbove(tag: Half, level: Half)
    requires level & 0xC000 == 0 && (tag == 0 || tag == 0x4000 || tag == 0x8000 || tag == 0xC000)
    ensures (tag | level) & 0x3FFF == level
    ensures (tag | level) >> 14 == (if tag == 0 then 0 else if tag == 0x4000 then 1 else if tag == 0x8000 then 2 else 3)
  {
  }

  lemma EncodeDecodes(chipChannel: nat, value: bv32, gain: bool, buffer: bool)
    requires chipChannel < 4
    ensures Tag(Encode(chipChannel, value, gain, buffer)) == chipChannel
    ensures Payload(Encode(chipChannel, value, gain, buffer)) == Level(value, gain, buffer)
  {
    LevelLayout(value, gain, buffer);
    hide Level, Low12;
  }

  function Pack(high: Half, low: Half): bv32 { ((high as bv32) << 16) | (low as bv32) }

  function HighHalf(word: bv32): Half { (word >> 16) as bv16 }

  function LowHalf(word: bv32): Half { (word & 0xFFFF) as bv16 }

  lemma PackSplits(high: Half, low: Half)
    ensures HighHalf(Pack(high, low)) == high && LowHalf(Pack(high, low)) == low
  {
  }

  /** What a register is sent for a write to ch: channels 0 to 3 are in bits 0 to 15, channels 4 to 7 above. */
  ghost predicate WordFor(word: bv32, ch: nat, own: Half, other: Half) {
    word & 0xFFFF == (if ch < 4 then own else other) as bv32 && word >> 16 == (if ch < 4 then other else own) as bv32
  }

  lemma PackIsWord(ch: nat, own: Half, other: Half)
    ensures WordFor(if ch < 4 then Pack(other, own) else Pack(own, other), ch, own, other)
  {
  }
}
