/** The AFE function table of srcs/defines.hpp: where each named function lives in the AFE chip's
    registers and which settings it takes. */
module AfeTable {

  import opened BitField

  /** Rows by register and lowest bit; the source keeps position and options in two tables with the
      same names. */
  datatype Table = End | Row(name: string, register: Place, msb: Place, lsb: Place, options: seq<bv16>, more: Table)

  /** The registers of Daphne::initRegDictHistory. */
  const REGISTER_LIST: set<Place> :=
    {0, 1, 2, 3, 4, 5, 10, 13, 15, 17, 19, 21, 25, 27, 29, 31, 33, 50, 51, 52, 53, 54, 55, 56, 57, 59, 66}

  /** The largest value that fits high - low = n and one more bits. */
  function Ones(n: Place): bv16 {
    if n == 0 then 1 else if n == 1 then 3 else if n == 2 then 7 else if n == 3 then 0xF
    else if n == 4 then 0x1F else if n == 7 then 0xFF else if n == 9 then 0x3FF else if n == 13 then 0x3FFF else 0
  }

  /** Such a value survives being cut to the field. */
  lemma OnesFit(low: Place, high: Place, v: bv16)
    requires low <= high <= 15 && AtMost(v, Ones(high - low))
    ensures And(Wide(v), Mask(low, high)) == Wide(v)
  {
  }

  /** Two options are the ends of a range; any other number of them is a list. */
  predicate Accepts(options: seq<bv16>, value: bv16) {
    if |options| == 2 then AtMost(options[0], value) && AtMost(value, options[1]) else value in options
  }

  /** Which settings a function takes, over the numbers: with two options everything from one to the other, and
      otherwise just the options. */
  lemma AcceptsExactly(options: seq<bv16>, value: bv16)
    ensures |options| == 2 ==> (Accepts(options, value) <==> options[0] as int <= value as int <= options[1] as int)
    ensures |options| != 2 ==> (Accepts(options, value) <==> exists i :: 0 <= i < |options| && options[i] == value)
  {
    if |options| == 2 {
      AtMostIs(options[0], value);
      AtMostIs(value, options[1]);
    }
    hide AtMost;
  }

  /** What a well-formed row accepts fits its field. */
  lemma AcceptedFits(t: Table, value: bv16)
    requires t.Row? && RowFits(t) && Accepts(t.options, value)
    ensures And(Wide(value), Mask(t.lsb, t.msb)) == Wide(value)
  {
    hide Ones, AtMost, And, Mask, Wide;
    var top := Ones(t.msb - t.lsb);
    if |t.options| == 2 {
      AtMostIs(value, t.options[1]);
      AtMostIs(t.options[1], top);
      AtMostIs(value, top);
    } else {
      var i :| 0 <= i < |t.options| && t.options[i] == value;
    }
    OnesFit(t.lsb, t.msb, value);
  }

  predicate RowFits(t: Table)
    requires t.Row?
  {
    && t.register in REGISTER_LIST
    && t.lsb <= t.msb <= 15
    && (forall i :: 0 <= i < |t.options| ==> AtMost(t.options[i], Ones(t.msb - t.lsb)))
  }

  /** The second position is not before the first. */
  predicate NotBefore(register: Place, bit: Place, register': Place, bit': Place) {
    Below8(register, register') || (register == register' && !Below8(bit', bit))
  }

  /** Every row fits and begins at the given bit of the given register or later, each row after the last. */
  predicate Sound(t: Table, register: Place, bit: Place) {
    t.Row? ==>
      && RowFits(t)
      && NotBefore(register, bit, t.register, t.lsb)
      && Sound(t.more, t.register, t.msb + 1)
  }

  function Find(t: Table, name: string): (row: Table)
    ensures row.Row? ==> row.name == name
  {
    if t.End? || t.name == name then t else Find(t.more, name)
  }

  function Part1(rest: Table): Table {
    Row("SOFTWARE_RESET", 0, 0, 0, [0, 1],
    Row("REGISTER_READOUT_ENABLE", 0, 1, 1, [0, 1],
    Row("ADC_COMPLETE_PDN", 1, 0, 0, [0, 1],
    Row("LVDS_OUTPUT_DISABLE", 1, 1, 1, [0, 1],
    Row("ADC_PDN_CH", 1, 9, 2, [0, 0xff],
    Row("PARTIAL_PDN", 1, 10, 10, [0, 1], rest))))))
  }

  function Part2(rest: Table): Table {
    Row("LOW_FREQUENCY_NOISE_SUPPRESSION", 1, 11, 11, [0, 1],
    Row("EXT_REF", 1, 13, 13, [0, 1],
    Row("SINGLE-ENDED_CLK_MODE", 1, 15, 15, [0, 1],
    Row("POWER-DOWN_LVDS", 2, 10, 3, [0, 1],
    Row("AVERAGING_ENABLE", 2, 11, 11, [0, 1],
    Row("LOW_LATENCY", 2, 12, 12, [0, 1], rest))))))
  }

  function Part3(rest: Table): Table {
    Row("TEST_PATTERN_MODES", 2, 15, 13, [0, 7],
    Row("INVERT_CHANNELS", 3, 7, 0, [0, 0xff],
    Row("CHANNEL_OFFSET_SUBSTRACTION_ENABLE", 3, 8, 8, [0, 1],
    Row("DIGITAL_GAIN_ENABLE", 3, 12, 12, [0, 1],
    Row("SERIALIZED_DATA_RATE", 3, 14, 13, [0, 3],
    Row("ENABLE_EXTERNAL_REFERENCE_MODE", 3, 15, 15, [0, 1], rest))))))
  }

  function Part4(rest: Table): Table {
    Row("ADC_RESOLUTION_RESET", 4, 1, 1, [0, 1],
    Row("ADC_OUTPUT_FORMAT", 4, 3, 3, [0, 1],
    Row("LSB_MSB_FIRST", 4, 4, 4, [0, 1],
    Row("CUSTOM_PATTERN", 5, 13, 0, [0, 0x3fff],
    Row("SYNC_PATTERN", 10, 8, 8, [0, 1],
    Row("OFFSET_CH1", 13, 9, 0, [0, 0x3ff], rest))))))
  }

  function Part5(rest: Table): Table {
    Row("DIGITAL_GAIN_CH1", 13, 15, 11, [0, 0x1f],
    Row("OFFSET_CH2", 15, 9, 0, [0, 0x3ff],
    Row("DIGITAL_GAIN_CH2", 15, 15, 11, [0, 0x1f],
    Row("OFFSET_CH3", 17, 9, 0, [0, 0x3ff],
    Row("DIGITAL_GAIN_CH3", 17, 15, 11, [0, 0x1f],
    Row("OFFSET_CH4", 19, 9, 0, [0, 0x3ff], rest))))))
  }

  function Part6(rest: Table): Table {
    Row("DIGITAL_GAIN_CH4", 19, 15, 11, [0, 0x1f],
    Row("DIGITAL_HPF_FILTER_ENABLE_CH1-4", 21, 0, 0, [0, 1],
    Row("DIGITAL_HPF_FILTER_K_CH1-4", 21, 4, 1, [2, 10],
    Row("OFFSET_CH8", 25, 9, 0, [0, 0x3ff],
    Row("DIGITAL_GAIN_CH8", 25, 15, 11, [0, 0x1f],
    Row("OFFSET_CH7", 27, 9, 0, [0, 0x3ff], rest))))))
  }

  function Part7(rest: Table): Table {
    Row("DIGITAL_GAIN_CH7", 27, 15, 11, [0, 0x1f],
    Row("OFFSET_CH6", 29, 9, 0, [0, 0x3ff],
    Row("DIGITAL_GAIN_CH6", 29, 15, 11, [0, 0x1f],
    Row("OFFSET_CH5", 31, 9, 0, [0, 0x3ff],
    Row("DIGITAL_GAIN_CH5", 31, 15, 11, [0, 0x1f],
    Row("DIGITAL_HPF_FILTER_ENABLE_CH5-8", 33, 0, 0, [0, 1], rest))))))
  }

  function Part8(rest: Table): Table {
    Row("DIGITAL_HPF_FILTER_K_CH5-8", 33, 4, 1, [2, 10],
    Row("PGA_CLAMP_-6dB", 50, 10, 10, [0, 1],
    Row("LPF_PROGRAMMABILITY", 51, 3, 1, [0, 2, 3, 4],
    Row("PGA_INTEGRATOR_DISABLE", 51, 4, 4, [0, 1],
    Row("PGA_CLAMP_LEVEL", 51, 7, 5, [0, 7],
    Row("PGA_GAIN_CONTROL", 51, 13, 13, [0, 1], rest))))))
  }

  function Part9(rest: Table): Table {
    Row("ACTIVE_TERMINATION_INDIVIDUAL_RESISTOR_CNTL", 52, 4, 0, [0, 0x1f],
    Row("ACTIVE_TERMINATION_INDIVIDUAL_RESISTOR_ENABLE", 52, 5, 5, [0, 1],
    Row("PRESET_ACTIVE_TERMINATIONS", 52, 7, 6, [0, 3],
    Row("ACTIVE_TERMINATION_ENABLE", 52, 8, 8, [0, 1],
    Row("LNA_INPUT_CLAMP_SETTING", 52, 10, 9, [0, 3],
    Row("LNA_INTEGRATOR_DISABLE", 52, 12, 12, [0, 1], rest))))))
  }

  function Part10(rest: Table): Table {
    Row("LNA_GAIN", 52, 14, 13, [0, 3],
    Row("LNA_INDIVIDUAL_CH_CNTL", 52, 15, 15, [0, 1],
    Row("PDN_CH", 53, 7, 0, [0, 0xff],
    Row("LOW_POWER", 53, 10, 10, [0, 1],
    Row("MED_POWER", 53, 11, 11, [0, 1],
    Row("PDN_VCAT_PGA", 53, 12, 12, [0, 1], rest))))))
  }

  function Part11(rest: Table): Table {
    Row("PDN_LNA", 53, 13, 13, [0, 1],
    Row("VCA_PARTIAL_PDN", 53, 14, 14, [0, 1],
    Row("VCA_COMPLETE_PDN", 53, 15, 15, [0, 1],
    Row("CW_SUM_AMP_GAIN_CNTL", 54, 4, 0, [0, 1, 2, 4, 8, 16],
    Row("CW_16X_CLK_SEL", 54, 5, 5, [0, 1],
    Row("CW_1X_CLK_SEL", 54, 6, 6, [0, 1], rest))))))
  }

  function Part12(rest: Table): Table {
    Row("CW_TGC_SEL", 54, 8, 8, [0, 1],
    Row("CW_SUM_AMP_ENABLE", 54, 9, 9, [0, 1],
    Row("CW_CLK_MODE_SEL", 54, 11, 10, [0, 3],
    Row("CH1_CW_MIXER_PHASE", 55, 3, 0, [0, 15],
    Row("CH2_CW_MIXER_PHASE", 55, 7, 4, [0, 15],
    Row("CH3_CW_MIXER_PHASE", 55, 11, 8, [0, 15], rest))))))
  }

  function Part13(rest: Table): Table {
    Row("CH4_CW_MIXER_PHASE", 55, 15, 12, [0, 15],
    Row("CH5_CW_MIXER_PHASE", 56, 3, 0, [0, 15],
    Row("CH6_CW_MIXER_PHASE", 56, 7, 4, [0, 15],
    Row("CH7_CW_MIXER_PHASE", 56, 11, 8, [0, 15],
    Row("CH8_CW_MIXER_PHASE", 56, 15, 12, [0, 15],
    Row("CH1_LNA_GAIN_CNTL", 57, 1, 0, [0, 3], rest))))))
  }

  function Part14(rest: Table): Table {
    Row("CH2_LNA_GAIN_CNTL", 57, 3, 2, [0, 3],
    Row("CH3_LNA_GAIN_CNTL", 57, 5, 4, [0, 3],
    Row("CH4_LNA_GAIN_CNTL", 57, 7, 6, [0, 3],
    Row("CH5_LNA_GAIN_CNTL", 57, 9, 8, [0, 3],
    Row("CH6_LNA_GAIN_CNTL", 57, 11, 10, [0, 3],
    Row("CH7_LNA_GAIN_CNTL", 57, 13, 12, [0, 3], rest))))))
  }

  function Part15(rest: Table): Table {
    Row("CH8_LNA_GAIN_CNTL", 57, 15, 14, [0, 3],
    Row("HPF_LNA", 59, 3, 2, [0, 3],
    Row("DIG_TGC_ATT_GAIN", 59, 6, 4, [0, 7],
    Row("DIG_TGC_ATT", 59, 7, 7, [0, 1],
    Row("CW_SUM_AMP_PDN", 59, 8, 8, [0, 1],
    Row("PGA_TEST_MODE", 59, 9, 9, [0, 1], rest))))))
  }

  function Part16(rest: Table): Table {
    Row("DITHER", 66, 15, 15, [0, 1], rest)
  }

  /** The rows whose bit ranges run forwards. */
  function FunctionTable(): Table {
    Part1(Part2(Part3(Part4(Part5(Part6(Part7(Part8(Part9(Part10(Part11(Part12(Part13(Part14(Part15(Part16(End))))))))))))))))
  }

  lemma Part1Sound(rest: Table)
    requires Sound(rest, 1, 11)
    ensures Sound(Part1(rest), 0, 0)
  {
    var t := Part1(rest);
    assert Sound(t.more.more.more.more.more, 1, 10);
    assert Sound(t.more.more.more.more, 1, 2);
    assert Sound(t.more.more.more, 1, 1);
    assert Sound(t.more.more, 0, 2);
    assert Sound(t.more, 0, 1);
  }

  lemma Part2Sound(rest: Table)
    requires Sound(rest, 2, 13)
    ensures Sound(Part2(rest), 1, 11)
  {
    var t := Part2(rest);
    assert Sound(t.more.more.more.more.more, 2, 12);
    assert Sound(t.more.more.more.more, 2, 11);
    assert Sound(t.more.more.more, 1, 16);
    assert Sound(t.more.more, 1, 14);
    assert Sound(t.more, 1, 12);
  }

  lemma Part3Sound(rest: Table)
    requires Sound(rest, 3, 16)
    ensures Sound(Part3(rest), 2, 13)
  {
    var t := Part3(rest);
    assert Sound(t.more.more.more.more.more, 3, 15);
    assert Sound(t.more.more.more.more, 3, 13);
    assert Sound(t.more.more.more, 3, 9);
    assert Sound(t.more.more, 3, 8);
    assert Sound(t.more, 2, 16);
  }

  lemma Part4Sound(rest: Table)
    requires Sound(rest, 13, 10)
    ensures Sound(Part4(rest), 3, 16)
  {
    var t := Part4(rest);
    assert Sound(t.more.more.more.more.more, 10, 9);
    assert Sound(t.more.more.more.more, 5, 14);
    assert Sound(t.more.more.more, 4, 5);
    assert Sound(t.more.more, 4, 4);
    assert Sound(t.more, 4, 2);
  }

  lemma Part5Sound(rest: Table)
    requires Sound(rest, 19, 10)
    ensures Sound(Part5(rest), 13, 10)
  {
    var t := Part5(rest);
    assert Sound(t.more.more.more.more.more, 17, 16);
    assert Sound(t.more.more.more.more, 17, 10);
    assert Sound(t.more.more.more, 15, 16);
    assert Sound(t.more.more, 15, 10);
    assert Sound(t.more, 13, 16);
  }

  lemma Part6Sound(rest: Table)
    requires Sound(rest, 27, 10)
    ensures Sound(Part6(rest), 19, 10)
  {
    var t := Part6(rest);
    assert Sound(t.more.more.more.more.more, 25, 16);
    assert Sound(t.more.more.more.more, 25, 10);
    assert Sound(t.more.more.more, 21, 5);
    assert Sound(t.more.more, 21, 1);
    assert Sound(t.more, 19, 16);
  }

  lemma Part7Sound(rest: Table)
    requires Sound(rest, 33, 1)
    ensures Sound(Part7(rest), 27, 10)
  {
    var t := Part7(rest);
    assert Sound(t.more.more.more.more.more, 31, 16);
    assert Sound(t.more.more.more.more, 31, 10);
    assert Sound(t.more.more.more, 29, 16);
    assert Sound(t.more.more, 29, 10);
    assert Sound(t.more, 27, 16);
  }

  lemma Part8Sound(rest: Table)
    requires Sound(rest, 51, 14)
    ensures Sound(Part8(rest), 33, 1)
  {
    var t := Part8(rest);
    assert Sound(t.more.more.more.more.more, 51, 8);
    assert Sound(t.more.more.more.more, 51, 5);
    assert Sound(t.more.more.more, 51, 4);
    assert Sound(t.more.more, 50, 11);
    assert Sound(t.more, 33, 5);
  }

  lemma Part9Sound(rest: Table)
    requires Sound(rest, 52, 13)
    ensures Sound(Part9(rest), 51, 14)
  {
    var t := Part9(rest);
    assert Sound(t.more.more.more.more.more, 52, 11);
    assert Sound(t.more.more.more.more, 52, 9);
    assert Sound(t.more.more.more, 52, 8);
    assert Sound(t.more.more, 52, 6);
    assert Sound(t.more, 52, 5);
  }

  lemma Part10Sound(rest: Table)
    requires Sound(rest, 53, 13)
    ensures Sound(Part10(rest), 52, 13)
  {
    var t := Part10(rest);
    assert Sound(t.more.more.more.more.more, 53, 12);
    assert Sound(t.more.more.more.more, 53, 11);
    assert Sound(t.more.more.more, 53, 8);
    assert Sound(t.more.more, 52, 16);
    assert Sound(t.more, 52, 15);
  }

  lemma Part11Sound(rest: Table)
    requires Sound(rest, 54, 7)
    ensures Sound(Part11(rest), 53, 13)
  {
    var t := Part11(rest);
    assert Sound(t.more.more.more.more.more, 54, 6);
    assert Sound(t.more.more.more.more, 54, 5);
    assert Sound(t.more.more.more, 53, 16);
    assert Sound(t.more.more, 53, 15);
    assert Sound(t.more, 53, 14);
  }

  lemma Part12Sound(rest: Table)
    requires Sound(rest, 55, 12)
    ensures Sound(Part12(rest), 54, 7)
  {
    var t := Part12(rest);
    assert Sound(t.more.more.more.more.more, 55, 8);
    assert Sound(t.more.more.more.more, 55, 4);
    assert Sound(t.more.more.more, 54, 12);
    assert Sound(t.more.more, 54, 10);
    assert Sound(t.more, 54, 9);
  }

  lemma Part13Sound(rest: Table)
    requires Sound(rest, 57, 2)
    ensures Sound(Part13(rest), 55, 12)
  {
    var t := Part13(rest);
    assert Sound(t.more.more.more.more.more, 56, 16);
    assert Sound(t.more.more.more.more, 56, 12);
    assert Sound(t.more.more.more, 56, 8);
    assert Sound(t.more.more, 56, 4);
    assert Sound(t.more, 55, 16);
  }

  lemma Part14Sound(rest: Table)
    requires Sound(rest, 57, 14)
    ensures Sound(Part14(rest), 57, 2)
  {
    var t := Part14(rest);
    assert Sound(t.more.more.more.more.more, 57, 12);
    assert Sound(t.more.more.more.more, 57, 10);
    assert Sound(t.more.more.more, 57, 8);
    assert Sound(t.more.more, 57, 6);
    assert Sound(t.more, 57, 4);
  }

  lemma Part15Sound(rest: Table)
    requires Sound(rest, 59, 10)
    ensures Sound(Part15(rest), 57, 14)
  {
    var t := Part15(rest);
    assert Sound(t.more.more.more.more.more, 59, 9);
    assert Sound(t.more.more.more.more, 59, 8);
    assert Sound(t.more.more.more, 59, 7);
    assert Sound(t.more.more, 59, 4);
    assert Sound(t.more, 57, 16);
  }

  lemma Part16Sound(rest: Table)
    requires Sound(rest, 66, 16)
    ensures Sound(Part16(rest), 59, 10)
  {
    var t := Part16(rest);
  }

  /** In these rows every field lies in a listed 16-bit register, every option fits its field,
      and no two fields overlap. */
  lemma TableSound()
    ensures Sound(FunctionTable(), 0, 0)
  {
    hide Sound, Part1, Part2, Part3, Part4, Part5, Part6, Part7, Part8, Part9, Part10, Part11, Part12, Part13, Part14, Part15, Part16;
    EndSound(66, 16);
    var t16 := Part16(End);
    Part16Sound(End);
    var t15 := Part15(t16);
    Part15Sound(t16);
    var t14 := Part14(t15);
    Part14Sound(t15);
    var t13 := Part13(t14);
    Part13Sound(t14);
    var t12 := Part12(t13);
    Part12Sound(t13);
    var t11 := Part11(t12);
    Part11Sound(t12);
    var t10 := Part10(t11);
    Part10Sound(t11);
    var t9 := Part9(t10);
    Part9Sound(t10);
    var t8 := Part8(t9);
    Part8Sound(t9);
    var t7 := Part7(t8);
    Part7Sound(t8);
    var t6 := Part6(t7);
    Part6Sound(t7);
    var t5 := Part5(t6);
    Part5Sound(t6);
    var t4 := Part4(t5);
    Part4Sound(t5);
    var t3 := Part3(t4);
    Part3Sound(t4);
    var t2 := Part2(t3);
    Part2Sound(t3);
    var t1 := Part1(t2);
    Part1Sound(t2);
  }

  lemma EndSound(register: Place, bit: Place)
    ensures Sound(End, register, bit)
  {
  }

  lemma SoundStep(t: Table, register: Place, bit: Place)
    requires t.Row? && Sound(t, register, bit)
    ensures RowFits(t) && NotBefore(register, bit, t.register, t.lsb) && Sound(t.more, t.register, t.msb + 1)
    ensures t.lsb <= t.msb <= 15
  {
    hide Ones;
  }

  lemma PastField(low: Place, high: Place, next: Place)
    requires low <= high <= 15 && !Below8(next, high + 1)
    ensures high < next && !Below8(next, low)
  {
  }

  lemma InOrder(r: Place, b: Place, r1: Place, low1: Place, high1: Place, r2: Place, low2: Place)
    requires low1 <= high1 <= 15
    requires NotBefore(r, b, r1, low1) && NotBefore(r1, high1 + 1, r2, low2)
    ensures NotBefore(r, b, r2, low2)
    ensures r1 == r2 ==> high1 < low2
  {
    hide Below8;
    Below8Transitive(r, r1, r2);
    if r1 == r2 {
      Irreflexive(r1);
      PastField(low1, high1, low2);
      Below8Transitive(b, low1, low2);
    }
  }

  lemma Irreflexive(r: Place)
    ensures !Below8(r, r)
  {
  }

  /** What a look-up finds is well formed and comes no earlier than the table does. */
  lemma {:induction false} FoundFits(t: Table, register: Place, bit: Place, name: string)
    requires Sound(t, register, bit) && Find(t, name).Row?
    ensures var row := Find(t, name);
      RowFits(row) && row.lsb <= row.msb <= 15 && NotBefore(register, bit, row.register, row.lsb)
  {
    hide Sound, RowFits, NotBefore;
    SoundStep(t, register, bit);
    if t.name != name {
      FoundFits(t.more, t.register, t.msb + 1, name);
      InOrder(register, bit, t.register, t.lsb, t.msb, Find(t.more, name).register, Find(t.more, name).lsb);
    }
  }

  /** Two functions never share a bit. */
  lemma {:induction false} FoundApart(t: Table, register: Place, bit: Place, a: string, b: string)
    requires Sound(t, register, bit) && Find(t, a).Row? && Find(t, b).Row? && a != b
    ensures var p, q := Find(t, a), Find(t, b); p.register == q.register ==> Apart(p.lsb, p.msb, q.lsb, q.msb)
  {
    hide Sound, RowFits, NotBefore;
    SoundStep(t, register, bit);
    if t.name == a {
      FoundFits(t.more, t.register, t.msb + 1, b);
      InOrder(register, bit, t.register, t.lsb, t.msb, Find(t.more, b).register, Find(t.more, b).lsb);
    } else if t.name == b {
      FoundFits(t.more, t.register, t.msb + 1, a);
      InOrder(register, bit, t.register, t.lsb, t.msb, Find(t.more, a).register, Find(t.more, a).lsb);
    } else {
      FoundApart(t.more, t.register, t.msb + 1, a, b);
    }
  }

  // ---- The table as shipped ----

  /** The one function whose bit range runs backwards, 12 to 14: its mask is a shift by a negative amount. */
  const BACKWARDS := "LVDS_OUTPUT_RATE_2X"

  function ShippedTable(): Table { Row(BACKWARDS, 1, 12, 14, [0, 1], FunctionTable()) }

  predicate Forwards(row: Table)
    requires row.Row?
  {
    row.lsb <= row.msb
  }

  /** A table with that one function, and otherwise sound. */
  predicate Shipped(t: Table) {
    t.Row? && t.name == BACKWARDS && !Forwards(t) && Sound(t.more, 0, 0)
  }

  lemma ShippedTableIs()
    ensures Shipped(ShippedTable())
  {
    hide Sound, FunctionTable;
    TableSound();
  }

  /** Every function but that one is well formed. */
  lemma ShippedFits(t: Table, name: string)
    requires Shipped(t) && Find(t, name).Row?
    ensures Forwards(Find(t, name)) <==> name != BACKWARDS
    ensures RowFits(Find(t, name)) <==> name != BACKWARDS
    ensures Forwards(Find(t, name)) ==> Find(t, name).lsb <= Find(t, name).msb <= 15
  {
    hide Sound, Ones;
    if name != BACKWARDS {
      FoundFits(t.more, 0, 0, name);
    }
  }

  /** No two functions that run forwards share a bit. */
  lemma ShippedApart(t: Table, a: string, b: string)
    requires Shipped(t) && Find(t, a).Row? && Find(t, b).Row? && a != b
    requires Forwards(Find(t, a)) && Forwards(Find(t, b))
    ensures var p, q := Find(t, a), Find(t, b); p.register == q.register ==> Apart(p.lsb, p.msb, q.lsb, q.msb)
  {
    ShippedFits(t, a);
    ShippedFits(t, b);
    hide Sound, Ones, RowFits;
    FoundApart(t.more, 0, 0, a, b);
  }
}
