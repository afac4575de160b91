/** The dictionary of AFE functions and options that the clients keep, client/client_dictionaries.py, against the
    driver's table. */
module AfeOffers {

  import opened AfeTable

  // ---- The clients' dictionary ----

  /** available_afe_functions. The order of a dictionary means nothing; here it is the driver's. */
  datatype Offers = NoMore | Offer(name: string, options: seq<int>, more: Offers)

  function Offers1(rest: Offers): Offers {
    Offer("SOFTWARE_RESET", [0, 1],
    Offer("REGISTER_READOUT_ENABLE", [0, 1],
    Offer("ADC_COMPLETE_PDN", [0, 1],
    Offer("LVDS_OUTPUT_DISABLE", [0, 1],
    Offer("ADC_PDN_CH", [0, 0xFF],
    Offer("PARTIAL_PDN", [0, 1], rest))))))
  }

  function Offers2(rest: Offers): Offers {
    Offer("LOW_FREQUENCY_NOISE_SUPPRESSION", [0, 1],
    Offer("EXT_REF", [0, 1],
    Offer("SINGLE-ENDED_CLK_MODE", [0, 1],
    Offer("POWER-DOWN_LDVS", [0, 1],
    Offer("AVERAGING_ENABLE", [0, 1],
    Offer("LOW_LATENCY", [0, 1], rest))))))
  }

  function Offers3(rest: Offers): Offers {
    Offer("TEST_PATTERN_MODES", [0, 0x7],
    Offer("INVERT_CHANNELS", [0, 0xFF],
    Offer("CHANNEL_OFFSET_SUBSTRACTION_ENABLE", [0, 1],
    Offer("DIGITAL_GAIN_ENABLE", [0, 1],
    Offer("SERIALIZED_DATA_RATE", [0, 0x3],
    Offer("ENABLE_EXTERNAL_REFERENCE_MODE", [0, 1], rest))))))
  }

  function Offers4(rest: Offers): Offers {
    Offer("ADC_RESOLUTION_RESET", [0, 1],
    Offer("ADC_OUTPUT_FORMAT", [0, 1],
    Offer("LSB_MSB_FIRST", [0, 1],
    Offer("CUSTOM_PATTERN", [0, 0x3FFF],
    Offer("SYNC_PATTERN", [0, 1],
    Offer("OFFSET_CH1", [0, 0x3FF], rest))))))
  }

  function Offers5(rest: Offers): Offers {
    Offer("DIGITAL_GAIN_CH1", [0, 0x1F],
    Offer("OFFSET_CH2", [0, 0x3FF],
    Offer("DIGITAL_GAIN_CH2", [0, 0x1F],
    Offer("OFFSET_CH3", [0, 0x3FF],
    Offer("DIGITAL_GAIN_CH3", [0, 0x1F],
    Offer("OFFSET_CH4", [0, 0x3FF], rest))))))
  }

  function Offers6(rest: Offers): Offers {
    Offer("DIGITAL_GAIN_CH4", [0, 0x1F],
    Offer("DIGITAL_HPF_FILTER_ENABLE_CH1-4", [0, 1],
    Offer("DIGITAL_HPF_FILTER_K_CH1-4", [2, 10],
    Offer("OFFSET_CH8", [0, 0x3FF],
    Offer("DIGITAL_GAIN_CH8", [0, 0x1F],
    Offer("OFFSET_CH7", [0, 0x3FF], rest))))))
  }

  function Offers7(rest: Offers): Offers {
    Offer("DIGITAL_GAIN_CH7", [0, 0x1F],
    Offer("OFFSET_CH6", [0, 0x3FF],
    Offer("DIGITAL_GAIN_CH6", [0, 0x1F],
    Offer("OFFSET_CH5", [0, 0x3FF],
    Offer("DIGITAL_GAIN_CH5", [0, 0x1F],
    Offer("DIGITAL_HPF_FILTER_ENABLE_CH5-8", [0, 1], rest))))))
  }

  function Offers8(rest: Offers): Offers {
    Offer("DIGITAL_HPF_FILTER_K_CH5-8", [2, 10],
    Offer("PGA_CLAMP_-6dB", [0, 1],
    Offer("LPF_PROGRAMMABILITY", [0, 2, 3, 4],
    Offer("PGA_INTEGRATOR_DISABLE", [0, 1],
    Offer("PGA_CLAMP_LEVEL", [0, 7],
    Offer("PGA_GAIN_CONTROL", [0, 1], rest))))))
  }

  function Offers9(rest: Offers): Offers {
    Offer("ACTIVE_TERMINATION_INDIVIDUAL_RESISTOR_CNTL", [0, 0x1F],
    Offer("ACTIVE_TERMINATION_INDIVIDUAL_RESISTOR_ENABLE", [0, 1],
    Offer("PRESET_ACTIVE_TERMINATIONS", [0, 3],
    Offer("ACTIVE_TERMINATION_ENABLE", [0, 1],
    Offer("LNA_INPUT_CLAMP_SETTING", [0, 3],
    Offer("LNA_INTEGRATOR_DISABLE", [0, 1], rest))))))
  }

  function Offers10(rest: Offers): Offers {
    Offer("LNA_GAIN", [0, 3],
    Offer("LNA_INDIVIDUAL_CH_CNTL", [0, 1],
    Offer("PDN_CH", [0, 0xFF],
    Offer("LOW_POWER", [0, 1],
    Offer("MED_POWER", [0, 1],
    Offer("PDN_VCAT_PGA", [0, 1], rest))))))
  }

  function Offers11(rest: Offers): Offers {
    Offer("PDN_LNA", [0, 1],
    Offer("VCA_PARTIAL_PDN", [0, 1],
    Offer("VCA_COMPLETE_PDN", [0, 1],
    Offer("CW_SUM_AMP_GAIN_CNTL", [0, 1, 2, 4, 8, 16],
    Offer("CW_16X_CLK_SEL", [0, 1],
    Offer("CW_1X_CLK_SEL", [0, 1], rest))))))
  }

  function Offers12(rest: Offers): Offers {
    Offer("CW_TGC_SEL", [0, 1],
    Offer("CW_SUM_AMP_ENABLE", [0, 1],
    Offer("CW_CLK_MODE_SEL", [0, 3],
    Offer("CH1_CW_MIXER_PHASE", [0, 0xF],
    Offer("CH2_CW_MIXER_PHASE", [0, 0xF],
    Offer("CH3_CW_MIXER_PHASE", [0, 0xF], rest))))))
  }

  function Offers13(rest: Offers): Offers {
    Offer("CH4_CW_MIXER_PHASE", [0, 0xF],
    Offer("CH5_CW_MIXER_PHASE", [0, 0xF],
    Offer("CH6_CW_MIXER_PHASE", [0, 0xF],
    Offer("CH7_CW_MIXER_PHASE", [0, 0xF],
    Offer("CH8_CW_MIXER_PHASE", [0, 0xF],
    Offer("CH1_LNA_GAIN_CNTL", [0, 3], rest))))))
  }

  function Offers14(rest: Offers): Offers {
    Offer("CH2_LNA_GAIN_CNTL", [0, 3],
    Offer("CH3_LNA_GAIN_CNTL", [0, 3],
    Offer("CH4_LNA_GAIN_CNTL", [0, 3],
    Offer("CH5_LNA_GAIN_CNTL", [0, 3],
    Offer("CH6_LNA_GAIN_CNTL", [0, 3],
    Offer("CH7_LNA_GAIN_CNTL", [0, 3], rest))))))
  }

  function Offers15(rest: Offers): Offers {
    Offer("CH8_LNA_GAIN_CNTL", [0, 3],
    Offer("HPF_LNA", [0, 3],
    Offer("DIG_TGC_ATT_GAIN", [0, 0x7],
    Offer("DIG_TGC_ATT", [0, 1],
    Offer("CW_SUM_AMP_PDN", [0, 1],
    Offer("PGA_TEST_MODE", [0, 1], rest))))))
  }

  function Offers16(rest: Offers): Offers {
    Offer("DITHER", [0, 1], rest)
  }

  function Available(): Offers { Offer(BACKWARDS, [0, 1], AvailableForwards()) }

  function AvailableForwards(): Offers {
    Offers1(Offers2(Offers3(Offers4(Offers5(Offers6(Offers7(Offers8(
      Offers9(Offers10(Offers11(Offers12(Offers13(Offers14(Offers15(Offers16(NoMore))))))))))))))))
  }

  function Look(c: Offers, name: string): (o: Offers)
    ensures o.Offer? ==> o.name == name
  {
    if c.NoMore? || c.name == name then c else Look(c.more, name)
  }

  // ---- Against the driver's table ----

  /** What the driver calls one function, and what the clients call it. */
  const DRIVER_SPELLING := "POWER-DOWN_LVDS"
  const CLIENT_SPELLING := "POWER-DOWN_LDVS"

  predicate SameOptions(options: seq<bv16>, offered: seq<int>) {
    && |options| == |offered|
    && (forall i :: 0 <= i < |options| ==> options[i] as int == offered[i])
    && (|offered| == 2 ==> offered[0] < offered[1])
  }

  predicate SameRow(t: Table, c: Offers)
    requires t.Row? && c.Offer?
  {
    && (t.name == c.name || (t.name == DRIVER_SPELLING && c.name == CLIENT_SPELLING))
    && t.name != CLIENT_SPELLING && c.name != DRIVER_SPELLING
    && SameOptions(t.options, c.options)
  }

  /** Row by row the same functions and options, but for that spelling; every range has a smaller and a larger end. */
  predicate Agrees(t: Table, c: Offers) {
    (t.End? <==> c.NoMore?) && (t.Row? ==> SameRow(t, c) && Agrees(t.more, c.more))
  }

  lemma AgreesOn(t: Table, c: Offers)
    requires t.Row? && c.Offer? && SameRow(t, c) && Agrees(t.more, c.more)
    ensures Agrees(t, c)
  {
    hide SameRow;
  }

  lemma Offers1Agree(rest: Table, more: Offers)
    requires Agrees(rest, more)
    ensures Agrees(Part1(rest), Offers1(more))
  {
    hide Agrees;
    var t, c := Part1(rest), Offers1(more);
    AgreesOn(t.more.more.more.more.more, c.more.more.more.more.more);
    AgreesOn(t.more.more.more.more, c.more.more.more.more);
    AgreesOn(t.more.more.more, c.more.more.more);
    AgreesOn(t.more.more, c.more.more);
    AgreesOn(t.more, c.more);
    AgreesOn(t, c);
  }

  lemma Offers2Agree(rest: Table, more: Offers)
    requires Agrees(rest, more)
    ensures Agrees(Part2(rest), Offers2(more))
  {
    hide Agrees;
    var t, c := Part2(rest), Offers2(more);
    AgreesOn(t.more.more.more.more.more, c.more.more.more.more.more);
    AgreesOn(t.more.more.more.more, c.more.more.more.more);
    AgreesOn(t.more.more.more, c.more.more.more);
    AgreesOn(t.more.more, c.more.more);
    AgreesOn(t.more, c.more);
    AgreesOn(t, c);
  }

  lemma Offers3Agree(rest: Table, more: Offers)
    requires Agrees(rest, more)
    ensures Agrees(Part3(rest), Offers3(more))
  {
    hide Agrees;
    var t, c := Part3(rest), Offers3(more);
    AgreesOn(t.more.more.more.more.more, c.more.more.more.more.more);
    AgreesOn(t.more.more.more.more, c.more.more.more.more);
    AgreesOn(t.more.more.more, c.more.more.more);
    AgreesOn(t.more.more, c.more.more);
    AgreesOn(t.more, c.more);
    AgreesOn(t, c);
  }

  lemma Offers4Agree(rest: Table, more: Offers)
    requires Agrees(rest, more)
    ensures Agrees(Part4(rest), Offers4(more))
  {
    hide Agrees;
    var t, c := Part4(rest), Offers4(more);
    AgreesOn(t.more.more.more.more.more, c.more.more.more.more.more);
    AgreesOn(t.more.more.more.more, c.more.more.more.more);
    AgreesOn(t.more.more.more, c.more.more.more);
    AgreesOn(t.more.more, c.more.more);
    AgreesOn(t.more, c.more);
    AgreesOn(t, c);
  }

  lemma Offers5Agree(rest: Table, more: Offers)
    requires Agrees(rest, more)
    ensures Agrees(Part5(rest), Offers5(more))
  {
    hide Agrees;
    var t, c := Part5(rest), Offers5(more);
    AgreesOn(t.more.more.more.more.more, c.more.more.more.more.more);
    AgreesOn(t.more.more.more.more, c.more.more.more.more);
    AgreesOn(t.more.more.more, c.more.more.more);
    AgreesOn(t.more.more, c.more.more);
    AgreesOn(t.more, c.more);
    AgreesOn(t, c);
  }

  lemma Offers6Agree(rest: Table, more: Offers)
    requires Agrees(rest, more)
    ensures Agrees(Part6(rest), Offers6(more))
  {
    hide Agrees;
    var t, c := Part6(rest), Offers6(more);
    AgreesOn(t.more.more.more.more.more, c.more.more.more.more.more);
    AgreesOn(t.more.more.more.more, c.more.more.more.more);
    AgreesOn(t.more.more.more, c.more.more.more);
    AgreesOn(t.more.more, c.more.more);
    AgreesOn(t.more, c.more);
    AgreesOn(t, c);
  }

  lemma Offers7Agree(rest: Table, more: Offers)
    requires Agrees(rest, more)
    ensures Agrees(Part7(rest), Offers7(more))
  {
    hide Agrees;
    var t, c := Part7(rest), Offers7(more);
    AgreesOn(t.more.more.more.more.more, c.more.more.more.more.more);
    AgreesOn(t.more.more.more.more, c.more.more.more.more);
    AgreesOn(t.more.more.more, c.more.more.more);
    AgreesOn(t.more.more, c.more.more);
    AgreesOn(t.more, c.more);
    AgreesOn(t, c);
  }

  lemma Offers8Agree(rest: Table, more: Offers)
    requires Agrees(rest, more)
    ensures Agrees(Part8(rest), Offers8(more))
  {
    hide Agrees;
    var t, c := Part8(rest), Offers8(more);
    AgreesOn(t.more.more.more.more.more, c.more.more.more.more.more);
    AgreesOn(t.more.more.more.more, c.more.more.more.more);
    AgreesOn(t.more.more.more, c.more.more.more);
    AgreesOn(t.more.more, c.more.more);
    AgreesOn(t.more, c.more);
    AgreesOn(t, c);
  }

  lemma Offers9Agree(rest: Table, more: Offers)
    requires Agrees(rest, more)
    ensures Agrees(Part9(rest), Offers9(more))
  {
    hide Agrees;
    var t, c := Part9(rest), Offers9(more);
    AgreesOn(t.more.more.more.more.more, c.more.more.more.more.more);
    AgreesOn(t.more.more.more.more, c.more.more.more.more);
    AgreesOn(t.more.more.more, c.more.more.more);
    AgreesOn(t.more.more, c.more.more);
    AgreesOn(t.more, c.more);
    AgreesOn(t, c);
  }

  lemma Offers10Agree(rest: Table, more: Offers)
    requires Agrees(rest, more)
    ensures Agrees(Part10(rest), Offers10(more))
  {
    hide Agrees;
    var t, c := Part10(rest), Offers10(more);
    AgreesOn(t.more.more.more.more.more, c.more.more.more.more.more);
    AgreesOn(t.more.more.more.more, c.more.more.more.more);
    AgreesOn(t.more.more.more, c.more.more.more);
    AgreesOn(t.more.more, c.more.more);
    AgreesOn(t.more, c.more);
    AgreesOn(t, c);
  }

  lemma Offers11Agree(rest: Table, more: Offers)
    requires Agrees(rest, more)
    ensures Agrees(Part11(rest), Offers11(more))
  {
    hide Agrees;
    var t, c := Part11(rest), Offers11(more);
    AgreesOn(t.more.more.more.more.more, c.more.more.more.more.more);
    AgreesOn(t.more.more.more.more, c.more.more.more.more);
    AgreesOn(t.more.more.more, c.more.more.more);
    AgreesOn(t.more.more, c.more.more);
    AgreesOn(t.more, c.more);
    AgreesOn(t, c);
  }

  lemma Offers12Agree(rest: Table, more: Offers)
    requires Agrees(rest, more)
    ensures Agrees(Part12(rest), Offers12(more))
  {
    hide Agrees;
    var t, c := Part12(rest), Offers12(more);
    AgreesOn(t.more.more.more.more.more, c.more.more.more.more.more);
    AgreesOn(t.more.more.more.more, c.more.more.more.more);
    AgreesOn(t.more.more.more, c.more.more.more);
    AgreesOn(t.more.more, c.more.more);
    AgreesOn(t.more, c.more);
    AgreesOn(t, c);
  }

  lemma Offers13Agree(rest: Table, more: Offers)
    requires Agrees(rest, more)
    ensures Agrees(Part13(rest), Offers13(more))
  {
    hide Agrees;
    var t, c := Part13(rest), Offers13(more);
    AgreesOn(t.more.more.more.more.more, c.more.more.more.more.more);
    AgreesOn(t.more.more.more.more, c.more.more.more.more);
    AgreesOn(t.more.more.more, c.more.more.more);
    AgreesOn(t.more.more, c.more.more);
    AgreesOn(t.more, c.more);
    AgreesOn(t, c);
  }

  lemma Offers14Agree(rest: Table, more: Offers)
    requires Agrees(rest, more)
    ensures Agrees(Part14(rest), Offers14(more))
  {
    hide Agrees;
    var t, c := Part14(rest), Offers14(more);
    AgreesOn(t.more.more.more.more.more, c.more.more.more.more.more);
    AgreesOn(t.more.more.more.more, c.more.more.more.more);
    AgreesOn(t.more.more.more, c.more.more.more);
    AgreesOn(t.more.more, c.more.more);
    AgreesOn(t.more, c.more);
    AgreesOn(t, c);
  }

  lemma Offers15Agree(rest: Table, more: Offers)
    requires Agrees(rest, more)
    ensures Agrees(Part15(rest), Offers15(more))
  {
    hide Agrees;
    var t, c := Part15(rest), Offers15(more);
    AgreesOn(t.more.more.more.more.more, c.more.more.more.more.more);
    AgreesOn(t.more.more.more.more, c.more.more.more.more);
    AgreesOn(t.more.more.more, c.more.more.more);
    AgreesOn(t.more.more, c.more.more);
    AgreesOn(t.more, c.more);
    AgreesOn(t, c);
  }

  lemma Offers16Agree(rest: Table, more: Offers)
    requires Agrees(rest, more)
    ensures Agrees(Part16(rest), Offers16(more))
  {
    hide Agrees;
    var t, c := Part16(rest), Offers16(more);
    AgreesOn(t, c);
  }

  lemma {:induction false} LookAgrees(t: Table, c: Offers, name: string)
    requires Agrees(t, c) && name != DRIVER_SPELLING && name != CLIENT_SPELLING
    ensures Find(t, name).Row? <==> Look(c, name).Offer?
    ensures Find(t, name).Row? ==> SameOptions(Find(t, name).options, Look(c, name).options)
  {
    hide SameOptions, DRIVER_SPELLING, CLIENT_SPELLING;
    if t.Row? && t.name != name {
      LookAgrees(t.more, c.more, name);
    }
  }

  // ---- The one name they do not share ----

  lemma FindOn(t: Table, name: string)
    requires t.Row? && t.name != name
    ensures Find(t, name) == Find(t.more, name)
  {
  }

  lemma LookOn(c: Offers, name: string)
    requires c.Offer? && c.name != name
    ensures Look(c, name) == Look(c.more, name)
  {
  }

  /** The dictionaries agree but for that name: the clients offer a function the driver does not know, and do not offer
      one it does. */
  predicate Compatible(t: Table, c: Offers) {
    && Agrees(t, c)
    && Look(c, CLIENT_SPELLING).Offer? && Find(t, CLIENT_SPELLING).End?
    && Look(c, DRIVER_SPELLING).NoMore? && Find(t, DRIVER_SPELLING).Row?
  }

  lemma {:induction false} NeverSpelt(t: Table, c: Offers)
    requires Agrees(t, c)
    ensures Find(t, CLIENT_SPELLING).End? && Look(c, DRIVER_SPELLING).NoMore?
  {
    hide SameOptions, CLIENT_SPELLING, DRIVER_SPELLING;
    if t.Row? {
      NeverSpelt(t.more, c.more);
    }
  }

  lemma NotInFirstPart(rest: Table, more: Offers)
    ensures Find(Part1(rest), DRIVER_SPELLING) == Find(rest, DRIVER_SPELLING)
    ensures Look(Offers1(more), CLIENT_SPELLING) == Look(more, CLIENT_SPELLING)
  {
    hide Find, Look;
    var t, c := Part1(rest), Offers1(more);
    FindOn(t, DRIVER_SPELLING);
    LookOn(c, CLIENT_SPELLING);
    FindOn(t.more, DRIVER_SPELLING);
    LookOn(c.more, CLIENT_SPELLING);
    FindOn(t.more.more, DRIVER_SPELLING);
    LookOn(c.more.more, CLIENT_SPELLING);
    FindOn(t.more.more.more, DRIVER_SPELLING);
    LookOn(c.more.more.more, CLIENT_SPELLING);
    FindOn(t.more.more.more.more, DRIVER_SPELLING);
    LookOn(c.more.more.more.more, CLIENT_SPELLING);
    FindOn(t.more.more.more.more.more, DRIVER_SPELLING);
    LookOn(c.more.more.more.more.more, CLIENT_SPELLING);
  }

  lemma InSecondPart(rest: Table, more: Offers)
    ensures Find(Part2(rest), DRIVER_SPELLING).Row? && Look(Offers2(more), CLIENT_SPELLING).Offer?
  {
    hide Find, Look;
    var t, c := Part2(rest), Offers2(more);
    FindOn(t, DRIVER_SPELLING);
    LookOn(c, CLIENT_SPELLING);
    FindOn(t.more, DRIVER_SPELLING);
    LookOn(c.more, CLIENT_SPELLING);
    FindOn(t.more.more, DRIVER_SPELLING);
    LookOn(c.more.more, CLIENT_SPELLING);
    Here(t.more.more.more, c.more.more.more);
  }

  lemma Here(t: Table, c: Offers)
    requires t.Row? && c.Offer?
    ensures Find(t, t.name) == t && Look(c, c.name) == c
  {
  }

  // ---- The tables themselves ----

  lemma FirstParts() returns (rest: Table, more: Offers)
    ensures FunctionTable() == Part1(Part2(rest)) && AvailableForwards() == Offers1(Offers2(more))
  {
    hide Part1, Offers1, Part2, Offers2, Part3, Offers3, Part4, Offers4, Part5, Offers5, Part6, Offers6, Part7,
      Offers7, Part8, Offers8, Part9, Offers9, Part10, Offers10, Part11, Offers11, Part12, Offers12, Part13,
      Offers13, Part14, Offers14, Part15, Offers15, Part16, Offers16;
    rest := Part3(Part4(Part5(Part6(Part7(Part8(
      Part9(Part10(Part11(Part12(Part13(Part14(Part15(Part16(End))))))))))))));
    more := Offers3(Offers4(Offers5(Offers6(Offers7(Offers8(
      Offers9(Offers10(Offers11(Offers12(Offers13(Offers14(Offers15(Offers16(NoMore))))))))))))));
  }

  lemma SpelledApart()
    ensures Look(Available(), CLIENT_SPELLING).Offer? && Find(ShippedTable(), DRIVER_SPELLING).Row?
  {
    hide Find, Look, Part1, Offers1, Part2, Offers2, FunctionTable, AvailableForwards;
    var rest, more := FirstParts();
    FindOn(ShippedTable(), DRIVER_SPELLING);
    LookOn(Available(), CLIENT_SPELLING);
    NotInFirstPart(Part2(rest), Offers2(more));
    InSecondPart(rest, more);
  }

  /** The clients and the driver were given the same functions with the same options, but for one spelling. */
  lemma DictionariesAgree()
    ensures Agrees(ShippedTable(), Available())
  {
    hide Part1, Offers1, Part2, Offers2, Part3, Offers3, Part4, Offers4, Part5, Offers5, Part6, Offers6, Part7,
      Offers7, Part8, Offers8, Part9, Offers9, Part10, Offers10, Part11, Offers11, Part12, Offers12, Part13,
      Offers13, Part14, Offers14, Part15, Offers15, Part16, Offers16;
    assert Agrees(End, NoMore);
    hide Agrees;
    Offers16Agree(End, NoMore);
    var t16, c16 := Part16(End), Offers16(NoMore);
    Offers15Agree(t16, c16);
    var t15, c15 := Part15(t16), Offers15(c16);
    Offers14Agree(t15, c15);
    var t14, c14 := Part14(t15), Offers14(c15);
    Offers13Agree(t14, c14);
    var t13, c13 := Part13(t14), Offers13(c14);
    Offers12Agree(t13, c13);
    var t12, c12 := Part12(t13), Offers12(c13);
    Offers11Agree(t12, c12);
    var t11, c11 := Part11(t12), Offers11(c12);
    Offers10Agree(t11, c11);
    var t10, c10 := Part10(t11), Offers10(c11);
    Offers9Agree(t10, c10);
    var t9, c9 := Part9(t10), Offers9(c10);
    Offers8Agree(t9, c9);
    var t8, c8 := Part8(t9), Offers8(c9);
    Offers7Agree(t8, c8);
    var t7, c7 := Part7(t8), Offers7(c8);
    Offers6Agree(t7, c7);
    var t6, c6 := Part6(t7), Offers6(c7);
    Offers5Agree(t6, c6);
    var t5, c5 := Part5(t6), Offers5(c6);
    Offers4Agree(t5, c5);
    var t4, c4 := Part4(t5), Offers4(c5);
    Offers3Agree(t4, c4);
    var t3, c3 := Part3(t4), Offers3(c4);
    Offers2Agree(t3, c3);
    var t2, c2 := Part2(t3), Offers2(c3);
    Offers1Agree(t2, c2);
    var t1, c1 := Part1(t2), Offers1(c2);
    assert t1 == FunctionTable() && c1 == AvailableForwards();
    AgreesOn(ShippedTable(), Available());
  }

  lemma AsShipped()
    ensures Compatible(ShippedTable(), Available())
  {
    hide Agrees, Available, ShippedTable, CLIENT_SPELLING, DRIVER_SPELLING, Find, Look;
    DictionariesAgree();
    NeverSpelt(ShippedTable(), Available());
    SpelledApart();
  }
}
