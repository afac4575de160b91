/** The LED pulser's register program of client/ssp_led_control.py: what a run writes, channel by channel,
    and what a stop undoes. */
module LedPulser {

  import opened Arithmetic
  import opened Wrappers

  const CAL_COUNT: nat := 0x80000448
  const PDTS_CMD_CONTROL_1: nat := 0x80000464
  const PDTS_CMD_CONTROL_2: nat := 0x80000468
  const PDTS_CONTROL: nat := 0x800004C0
  const PDTS_STATUS: nat := 0x800004C4
  const DP_CLOCK_CONTROL: nat := 0x80000520
  const PDTS_CMD_DELAY_0: nat := 0x80000940
  const MODULE_ID: nat := 0x80000024
  const BIAS_CONTROL: nat := 0x40000300

  datatype Config = Config(
    numberChannels: int,
    channelMask: int,
    pulseMode: string,
    burstCount: int,
    doublePulseDelayTicks: int,
    pulse1WidthTicks: int,
    pulse2WidthTicks: int,
    pulseBiasPercent270nm: int,
    pulseBiasPercent367nm: int,
    moduleId: Option<int>,
    partitionNumber: Option<int>,
    timingAddress: Option<int>,
    pdtsSync: bool)

  datatype Complaint =
    | NumberChannels | ChannelMask | PulseMode | BurstCount | DoublePulseDelay | Pulse1Width | Pulse2Width
    | Bias270nm | Bias367nm | PartitionMissing | TimingMissing | Partition | Timing

  /** The configurations a run accepts. */
  predicate Valid(cfg: Config) {
    && (cfg.numberChannels == 5 || cfg.numberChannels == 12)
    && 0 <= cfg.channelMask < 4096
    && (cfg.pulseMode == "single" || cfg.pulseMode == "burst")
    && 0 <= cfg.burstCount <= 10000
    && 0 <= cfg.doublePulseDelayTicks < 4096
    && 0 <= cfg.pulse1WidthTicks < 256
    && 0 <= cfg.pulse2WidthTicks < 256
    && 0 <= cfg.pulseBiasPercent270nm < 4096
    && 0 <= cfg.pulseBiasPercent367nm < 4096
    && (cfg.pdtsSync ==>
          && cfg.partitionNumber.Some? && 0 <= cfg.partitionNumber.value < 4
          && cfg.timingAddress.Some? && 0 <= cfg.timingAddress.value < 256)
  }

  /** validate_config: the first complaint, if any. */
  method ValidateConfig(cfg: Config) returns (r: Option<Complaint>)
    ensures r.None? <==> Valid(cfg)
    ensures r.None? <==>
            && cfg.numberChannels in {5, 12} && cfg.pulseMode in {"single", "burst"}
            && 0 <= cfg.channelMask <= 4095 && 0 <= cfg.burstCount <= 10000
            && 0 <= cfg.doublePulseDelayTicks <= 4095 && 0 <= cfg.pulse1WidthTicks <= 255 && 0 <= cfg.pulse2WidthTicks <= 255
            && 0 <= cfg.pulseBiasPercent270nm <= 4095 && 0 <= cfg.pulseBiasPercent367nm <= 4095
            && (cfg.pdtsSync ==>
                  && cfg.partitionNumber.Some? && 0 <= cfg.partitionNumber.value <= 3
                  && cfg.timingAddress.Some? && 0 <= cfg.timingAddress.value <= 255)
  {
    if cfg.numberChannels != 5 && cfg.numberChannels != 12 { return Some(NumberChannels); }
    if cfg.channelMask < 0 || cfg.channelMask > 4095 { return Some(ChannelMask); }
    if cfg.pulseMode != "single" && cfg.pulseMode != "burst" { return Some(PulseMode); }
    if cfg.burstCount < 0 || cfg.burstCount > 10000 { return Some(BurstCount); }
    if cfg.doublePulseDelayTicks < 0 || cfg.doublePulseDelayTicks > 4095 { return Some(DoublePulseDelay); }
    if cfg.pulse1WidthTicks < 0 || cfg.pulse1WidthTicks > 255 { return Some(Pulse1Width); }
    if cfg.pulse2WidthTicks < 0 || cfg.pulse2WidthTicks > 255 { return Some(Pulse2Width); }
    if cfg.pulseBiasPercent270nm < 0 || cfg.pulseBiasPercent270nm > 4095 { return Some(Bias270nm); }
    if cfg.pulseBiasPercent367nm < 0 || cfg.pulseBiasPercent367nm > 4095 { return Some(Bias367nm); }
    if cfg.pdtsSync {
      if cfg.partitionNumber.None? { return Some(PartitionMissing); }
      if cfg.timingAddress.None? { return Some(TimingMissing); }
      if cfg.partitionNumber.value < 0 || cfg.partitionNumber.value > 3 { return Some(Partition); }
      if cfg.timingAddress.value < 0 || cfg.timingAddress.value > 0xFF { return Some(Timing); }
    }
    r := None;
  }

  // ---- The declarative image ----

  /** Bit c of the channel mask. */
  predicate Enabled(cfg: Config, c: nat) { cfg.channelMask / Pow2(c) % 2 == 1 }

  /** The mask that asks for the channels of a set, of those below n: the sum of their powers of two. */
  ghost function MaskOf(channels: set<nat>, n: nat): (mask: nat)
    ensures mask < Pow2(n)
  {
    if n == 0 then 0 else MaskOf(channels, n - 1) + if n - 1 in channels then Pow2(n - 1) else 0
  }

  lemma MaskStep(channels: set<nat>, n: nat)
    ensures MaskOf(channels, n + 1) == MaskOf(channels, n) + (if n in channels then Pow2(n) else 0)
    ensures MaskOf(channels, n) < Pow2(n)
  {
  }

  lemma QuotientIs(x: nat, q: nat, p: nat)
    requires p > 0 && q * p <= x < q * p + p
    ensures x / p == q
  {
    var r := x / p;
    assert x == r * p + x % p;
    if r < q {
      WholeStep(r, q, p);
    } else if q < r {
      WholeStep(q, r, p);
    }
  }

  lemma AddedAbove(x: nat, high: nat, p: nat)
    requires p > 0
    ensures (x + 2 * high * p) / p % 2 == x / p % 2
  {
    var q := x / p;
    assert x == q * p + x % p;
    Distribute(q, 2 * high, p);
    QuotientIs(x + 2 * high * p, q + 2 * high, p);
  }

  /** Bit c of such a mask is set exactly for the channels of the set. */
  lemma {:induction false} MaskBit(channels: set<nat>, n: nat, c: nat)
    requires c < n
    ensures MaskOf(channels, n) / Pow2(c) % 2 == 1 <==> c in channels
  {
    hide MaskOf, Pow2;
    MaskStep(channels, n - 1);
    if c == n - 1 {
      QuotientIs(MaskOf(channels, n), if c in channels then 1 else 0, Pow2(c));
    } else {
      MaskBit(channels, n - 1, c);
      var high := if n - 1 in channels then Pow2(n - 2 - c) else 0;
      PowersAdd(n - 2 - c, c);
      Pow2Step(n - 2);
      Regroup(2, Pow2(n - 2 - c), Pow2(c));
      AddedAbove(MaskOf(channels, n - 1), high, Pow2(c));
    }
  }

  lemma {:induction false} MaskIgnores(channels: set<nat>, others: set<nat>, n: nat)
    requires forall c :: 0 <= c < n ==> (c in channels <==> c in others)
    ensures MaskOf(channels, n) == MaskOf(others, n)
  {
    if n > 0 {
      MaskIgnores(channels, others, n - 1);
    }
  }

  /** Every mask asks for some set of channels. */
  lemma {:induction false} MaskHasChannels(mask: nat, n: nat) returns (channels: set<nat>)
    requires mask < Pow2(n)
    ensures MaskOf(channels, n) == mask && forall c :: c in channels ==> c < n
  {
    channels := {};
    if n > 0 {
      if mask < Pow2(n - 1) {
        channels := MaskHasChannels(mask, n - 1);
      } else {
        var lower := MaskHasChannels(mask - Pow2(n - 1), n - 1);
        channels := lower + {n - 1};
        MaskIgnores(channels, lower, n - 1);
      }
    }
  }

  function Single(cfg: Config): bool { cfg.pulseMode == "single" }

  /** The pulse amplitude of a channel's LED: 270 nm below channel 6, 367 nm, halved, from there on. */
  function Amplitude(cfg: Config, c: nat): int {
    if c < 6 then cfg.pulseBiasPercent270nm else cfg.pulseBiasPercent367nm / 2
  }

  /** Channel 7 also drives the bias of channel 6 when that one is off. */
  predicate Borrowed(cfg: Config, c: nat) {
    c == 6 && cfg.numberChannels == 12 && !Enabled(cfg, 6) && Enabled(cfg, 7)
  }

  function BiasWord(cfg: Config, c: nat): int {
    if Enabled(cfg, c) || Borrowed(cfg, c) then 0x40000 + Amplitude(cfg, c) else 0
  }

  function TimingWord(cfg: Config, c: nat): int {
    if Enabled(cfg, c) then
      (if Single(cfg) then 0xF0000000 else 0x90000000)
      + cfg.pulse1WidthTicks + cfg.pulse2WidthTicks * 0x100 + cfg.doublePulseDelayTicks * 0x10000
    else 0
  }

  /** Bias and timing register of channel c in a layout of n channels. */
  function BiasAddress(n: int, c: nat): nat { (if n == 5 then 0x4000035C else 0x40000340) + 4 * c }

  function TimingAddress(n: int, c: nat): nat { (if n == 5 then 0x800003DC else 0x800003C0) + 4 * c }

  lemma Digits(mode: int, low: int, mid: int, high: int)
    requires 0 <= mode < 16 && 0 <= low < 0x100 && 0 <= mid < 0x100 && 0 <= high < 0x1000
    ensures var w := mode * 0x1000_0000 + low + mid * 0x100 + high * 0x10000;
      && w % 0x100 == low && w / 0x100 % 0x100 == mid && w / 0x10000 % 0x1000 == high && w / 0x1000_0000 == mode
  {
    var w := mode * 0x1000_0000 + low + mid * 0x100 + high * 0x10000;
    assert w == (mode * 0x10_0000 + mid + high * 0x100) * 0x100 + low;
    assert w / 0x100 == mode * 0x10_0000 + mid + high * 0x100;
    assert w / 0x100 == (mode * 0x1000 + high) * 0x100 + mid;
    assert w / 0x10000 == mode * 0x1000 + high;
  }

  /** The timing word gives back the mode, both widths and the delay, and is nonzero just for an enabled
      channel. */
  lemma TimingDecodes(cfg: Config, c: nat)
    requires Valid(cfg)
    ensures 0 <= TimingWord(cfg, c) < 0x1_0000_0000
    ensures TimingWord(cfg, c) != 0 <==> Enabled(cfg, c)
    ensures Enabled(cfg, c) ==>
              var w := TimingWord(cfg, c);
              && w % 0x100 == cfg.pulse1WidthTicks
              && w / 0x100 % 0x100 == cfg.pulse2WidthTicks
              && w / 0x10000 % 0x1000 == cfg.doublePulseDelayTicks
              && w / 0x1000_0000 == if Single(cfg) then 0xF else 0x9
  {
    hide Enabled, Single;
    Digits(if Single(cfg) then 0xF else 0x9, cfg.pulse1WidthTicks, cfg.pulse2WidthTicks, cfg.doublePulseDelayTicks);
  }

  /** Two valid configurations that program an enabled channel alike agree on everything it encodes. */
  lemma TimingIsInjective(cfg: Config, cfg': Config, c: nat)
    requires Valid(cfg) && Valid(cfg') && Enabled(cfg, c)
    requires TimingWord(cfg, c) == TimingWord(cfg', c)
    ensures Enabled(cfg', c) && Single(cfg) == Single(cfg')
    ensures cfg.pulse1WidthTicks == cfg'.pulse1WidthTicks && cfg.pulse2WidthTicks == cfg'.pulse2WidthTicks
    ensures cfg.doublePulseDelayTicks == cfg'.doublePulseDelayTicks
  {
    hide TimingWord, Enabled, Single;
    TimingDecodes(cfg, c);
    TimingDecodes(cfg', c);
  }

  /** The five-channel layout is slots 7 to 11 of the twelve-channel one, so both lie within twelve slots. */
  lemma LayoutsNest(n: int, c: nat)
    requires (n == 5 || n == 12) && c < n
    ensures exists slot: nat :: slot < 12 && BiasAddress(n, c) == BiasAddress(12, slot) && TimingAddress(n, c) == TimingAddress(12, slot)
  {
    var slot := if n == 5 then c + 7 else c;
    assert BiasAddress(n, c) == BiasAddress(12, slot);
  }

  predicate PdtsBlock(address: nat) {
    || address == PDTS_CMD_CONTROL_1 || address == PDTS_CMD_CONTROL_2 || address == DP_CLOCK_CONTROL
    || CommandDelay(address)
  }

  predicate CommandDelay(address: nat) { PDTS_CMD_DELAY_0 <= address < PDTS_CMD_DELAY_0 + 64 }

  /** The registers besides the two banks that a run may write. */
  predicate Control(address: nat) {
    address == MODULE_ID || address == CAL_COUNT || address == PDTS_CONTROL || PdtsBlock(address)
  }

  predicate InBanks(n: int, address: nat) {
    || BiasAddress(n, 0) <= address < BiasAddress(n, 0) + 4 * n
    || TimingAddress(n, 0) <= address < TimingAddress(n, 0) + 4 * n
  }

  type Registers = map<nat, nat>

  /** A register reads as v. */
  predicate Holds(regs: Registers, address: nat, v: int) { address in regs && regs[address] == v }

  predicate Same(before: Registers, after: Registers, address: nat) {
    (address in after <==> address in before) && (address in before ==> after[address] == before[address])
  }

  /** Channels below done carry their image; the loan to channel 6 happens in channel 7's turn. */
  ghost predicate Image(regs: Registers, cfg: Config, done: nat) {
    forall c: nat :: c < done ==>
      && Holds(regs, TimingAddress(cfg.numberChannels, c), TimingWord(cfg, c))
      && Holds(regs, BiasAddress(cfg.numberChannels, c), if Borrowed(cfg, c) && done <= 7 then 0 else BiasWord(cfg, c))
  }

  /** Every register outside the banks and the control registers is as before. */
  ghost predicate OthersKept(before: Registers, after: Registers, n: int) {
    forall a: nat :: !Control(a) && !InBanks(n, a) ==> Same(before, after, a)
  }

  /** Spelt out: outside the layout's own bank registers only these may differ. */
  lemma OthersAre(before: Registers, after: Registers, n: int, a: nat)
    requires OthersKept(before, after, n) && (n == 5 || n == 12)
    requires !((if n == 5 then 0x4000035C else 0x40000340) <= a < 0x40000370)
    requires !((if n == 5 then 0x800003DC else 0x800003C0) <= a < 0x800003F0)
    requires a !in {0x80000024, 0x80000448, 0x80000464, 0x80000468, 0x800004C0, 0x80000520}
    requires !(0x80000940 <= a < 0x80000980)
    ensures Same(before, after, a)
  {
  }

  /** Only the two registers of the synchronisation may differ. */
  ghost predicate SyncOnly(before: Registers, after: Registers) {
    forall a: nat :: a != PDTS_CONTROL && a != DP_CLOCK_CONTROL ==> Same(before, after, a)
  }

  predicate SyncPresent(regs: Registers) { PDTS_CONTROL in regs && DP_CLOCK_CONTROL in regs }

  lemma SyncNothing(regs: Registers)
    ensures SyncOnly(regs, regs)
  {
  }

  lemma SyncIsControl(before: Registers, after: Registers)
    requires SyncOnly(before, after)
    ensures forall a: nat :: !Control(a) ==> Same(before, after, a)
  {
  }

  lemma SelectionDecodes(partition: int, timing: int)
    requires 0 <= partition < 4 && 0 <= timing < 256
    ensures Selects(partition + timing * 0x10000, partition, timing)
    ensures 0 <= partition + timing * 0x10000 && 0x80000000 + partition + timing * 0x10000 < 0x1_0000_0000
  {
    assert (partition + timing * 0x10000) / 0x10000 == timing;
  }

  /** The PDTS command registers and the clock as every run sets them. */
  ghost predicate PdtsProgrammed(regs: Registers) {
    && Holds(regs, PDTS_CMD_CONTROL_1, 0x2E7) && Holds(regs, PDTS_CMD_CONTROL_2, 0x80000000)
    && Holds(regs, DP_CLOCK_CONTROL, 0x11)
    && forall i: nat :: i < 16 ==> Holds(regs, PDTS_CMD_DELAY_0 + 4 * i, 0x30036)
  }

  lemma PdtsStays(before: Registers, after: Registers)
    requires PdtsProgrammed(before) && forall a: nat :: PdtsBlock(a) ==> Same(before, after, a)
    ensures PdtsProgrammed(after)
  {
    forall i: nat | i < 16
      ensures Holds(after, PDTS_CMD_DELAY_0 + 4 * i, 0x30036)
    {
      assert PdtsBlock(PDTS_CMD_DELAY_0 + 4 * i) && Holds(before, PDTS_CMD_DELAY_0 + 4 * i, 0x30036);
    }
    assert PdtsBlock(PDTS_CMD_CONTROL_1) && PdtsBlock(PDTS_CMD_CONTROL_2) && PdtsBlock(DP_CLOCK_CONTROL);
  }

  lemma PdtsOutsideBanks(n: int, a: nat)
    requires (n == 5 || n == 12) && PdtsBlock(a)
    ensures !InBanks(n, a)
  {
  }

  /** What a run has set besides the banks. */
  ghost predicate Prepared(regs: Registers, cfg: Config) {
    && PdtsProgrammed(regs)
    && Holds(regs, CAL_COUNT, if Single(cfg) then 1 else cfg.burstCount)
    && (cfg.moduleId.Some? ==> Holds(regs, MODULE_ID, cfg.moduleId.value))
    && (cfg.pdtsSync && cfg.partitionNumber.Some? && cfg.timingAddress.Some? ==>
          PDTS_CONTROL in regs && Selects(regs[PDTS_CONTROL], cfg.partitionNumber.value, cfg.timingAddress.value))
  }

  lemma PreparedParts(regs: Registers, cfg: Config)
    requires Prepared(regs, cfg)
    ensures PdtsProgrammed(regs) && Holds(regs, CAL_COUNT, if Single(cfg) then 1 else cfg.burstCount)
    ensures cfg.moduleId.Some? ==> Holds(regs, MODULE_ID, cfg.moduleId.value)
    ensures cfg.pdtsSync && cfg.partitionNumber.Some? && cfg.timingAddress.Some? ==>
              PDTS_CONTROL in regs && Selects(regs[PDTS_CONTROL], cfg.partitionNumber.value, cfg.timingAddress.value)
  {
    hide PdtsProgrammed, Selects, Single;
  }

  lemma PreparedStays(before: Registers, after: Registers, cfg: Config)
    requires Prepared(before, cfg) && (cfg.numberChannels == 5 || cfg.numberChannels == 12)
    requires forall a: nat :: !InBanks(cfg.numberChannels, a) ==> Same(before, after, a)
    ensures Prepared(after, cfg)
  {
    forall a: nat | PdtsBlock(a)
      ensures Same(before, after, a)
    {
      PdtsOutsideBanks(cfg.numberChannels, a);
    }
    PdtsStays(before, after);
    var n := cfg.numberChannels;
    assert !InBanks(n, MODULE_ID) && !InBanks(n, CAL_COUNT) && !InBanks(n, PDTS_CONTROL);
    hide PdtsProgrammed, Selects, Single;
  }

  predicate ModuleFits(cfg: Config) { cfg.moduleId.Some? ==> 0 <= cfg.moduleId.value < 0x1_0000_0000 }

  lemma ValidParts(cfg: Config)
    requires Valid(cfg)
    ensures cfg.numberChannels == 5 || cfg.numberChannels == 12
    ensures 0 <= cfg.burstCount <= 10000
    ensures cfg.pdtsSync ==>
              && cfg.partitionNumber.Some? && 0 <= cfg.partitionNumber.value < 4
              && cfg.timingAddress.Some? && 0 <= cfg.timingAddress.value < 256
  {
  }

  /** cfg asks for exactly these channels. */
  ghost predicate AsksFor(cfg: Config, channels: set<nat>) { MaskOf(channels, 12) == cfg.channelMask }

  lemma EnabledIs(cfg: Config, channels: set<nat>, c: nat)
    requires AsksFor(cfg, channels) && c < 12
    ensures Enabled(cfg, c) <==> c in channels
  {
    hide MaskOf, Pow2;
    MaskBit(channels, 12, c);
  }

  /** The two registers of channel c after a run that asks for these channels: its pulse and its bias if it is one of
      them; its bias alone if it is channel 6 and lends it to channel 7; otherwise nothing. */
  ghost predicate ChannelSet(regs: Registers, cfg: Config, channels: set<nat>, c: nat) {
    var n := cfg.numberChannels;
    && Holds(regs, (if n == 5 then 0x800003DC else 0x800003C0) + 4 * c,
             if c !in channels then 0
             else (if cfg.pulseMode == "single" then 0xF0000000 else 0x90000000)
                  + cfg.pulse1WidthTicks + cfg.pulse2WidthTicks * 0x100 + cfg.doublePulseDelayTicks * 0x10000)
    && Holds(regs, (if n == 5 then 0x4000035C else 0x40000340) + 4 * c,
             if c in channels || (c == 6 && n == 12 && 7 in channels)
             then 0x40000 + (if c < 6 then cfg.pulseBiasPercent270nm else cfg.pulseBiasPercent367nm / 2)
             else 0)
  }

  /** The image, channel by channel, in terms of the set of channels asked for. */
  lemma ImageIs(regs: Registers, cfg: Config, channels: set<nat>, c: nat)
    requires Valid(cfg) && AsksFor(cfg, channels) && c < cfg.numberChannels && Image(regs, cfg, cfg.numberChannels)
    ensures ChannelSet(regs, cfg, channels, c)
  {
    EnabledIs(cfg, channels, c);
    EnabledIs(cfg, channels, 6);
    EnabledIs(cfg, channels, 7);
    hide Enabled, AsksFor;
    ImageAt(regs, cfg, cfg.numberChannels, c);
  }

  lemma ImageAt(regs: Registers, cfg: Config, done: nat, c: nat)
    requires c < done && Image(regs, cfg, done)
    ensures Holds(regs, TimingAddress(cfg.numberChannels, c), TimingWord(cfg, c))
    ensures Holds(regs, BiasAddress(cfg.numberChannels, c), if Borrowed(cfg, c) && done <= 7 then 0 else BiasWord(cfg, c))
  {
    hide Holds, BiasWord, TimingWord, Borrowed;
  }

  /** Exactly the channels asked for pulse. */
  lemma PulsesIff(regs: Registers, cfg: Config, channels: set<nat>, c: nat)
    requires Valid(cfg) && ChannelSet(regs, cfg, channels, c)
    ensures Holds(regs, (if cfg.numberChannels == 5 then 0x800003DC else 0x800003C0) + 4 * c, 0) <==> c !in channels
  {
  }

  lemma ImageSays(regs: Registers, cfg: Config)
    requires Valid(cfg) && Image(regs, cfg, cfg.numberChannels)
    ensures forall channels, c: nat :: AsksFor(cfg, channels) && c < cfg.numberChannels ==> ChannelSet(regs, cfg, channels, c)
  {
    hide Image, AsksFor, ChannelSet, Valid;
    forall channels, c: nat | AsksFor(cfg, channels) && c < cfg.numberChannels
      ensures ChannelSet(regs, cfg, channels, c)
    {
      ImageIs(regs, cfg, channels, c);
    }
  }

  /** One turn of the loop: the channel's own two registers, and in channel 7's turn the bias lent to channel 6. */
  ghost predicate Turn(regs: Registers, cfg: Config, channels: set<nat>, c: nat) {
    && (c in channels || c != 6 || cfg.numberChannels == 5 ==> ChannelSet(regs, cfg, channels, c))
    && (c == 7 ==> ChannelSet(regs, cfg, channels, 6))
  }

  lemma TurnIs(regs: Registers, cfg: Config, c: nat)
    requires Valid(cfg) && c < cfg.numberChannels && Image(regs, cfg, c + 1)
    ensures forall channels :: AsksFor(cfg, channels) ==> Turn(regs, cfg, channels, c)
  {
    forall channels | AsksFor(cfg, channels)
      ensures Turn(regs, cfg, channels, c)
    {
      EnabledIs(cfg, channels, c);
      EnabledIs(cfg, channels, 6);
      EnabledIs(cfg, channels, 7);
      hide Enabled, AsksFor;
      ImageAt(regs, cfg, c + 1, c);
      if c == 7 {
        ImageAt(regs, cfg, c + 1, 6);
      }
    }
  }

  lemma ImageStarts(cfg: Config)
    ensures forall regs :: Image(regs, cfg, 0)
  {
  }

  lemma ImageOn(regs: Registers, cfg: Config, c: nat)
    requires Valid(cfg) && c < cfg.numberChannels && Image(regs, cfg, c) && Enabled(cfg, c)
    ensures var b, t := BiasAddress(cfg.numberChannels, c), TimingAddress(cfg.numberChannels, c);
            var word := BiasWord(cfg, c);
            var biased := if c == 7 && !Enabled(cfg, 6) then regs[b := word][b - 4 := word] else regs[b := word];
            Image(biased[t := TimingWord(cfg, c)], cfg, c + 1)
  {
    hide Enabled, TimingWord;
    if c == 7 && !Enabled(cfg, 6) {
      assert BiasWord(cfg, 6) == BiasWord(cfg, 7);
    }
  }

  lemma ImageOff(regs: Registers, cfg: Config, c: nat)
    requires Valid(cfg) && c < cfg.numberChannels && Image(regs, cfg, c) && !Enabled(cfg, c)
    ensures Image(regs[BiasAddress(cfg.numberChannels, c) := 0][TimingAddress(cfg.numberChannels, c) := 0], cfg, c + 1)
  {
    hide Enabled;
  }

  /** How a transaction comes back: well; with the wrong address or length; with a failure status; or without
      the payload a read needs. */
  datatype Reply = Fine | Garbled | Refused | NoPayload

  /** A timing address and partition as PDTS_CONTROL carries them. */
  predicate Selects(control: nat, partition: int, timing: int) {
    control / 0x10000 % 0x100 == timing && control % 4 == partition
  }

  predicate NearlyRunning(status: nat) { 0x6 <= status % 16 <= 0x8 }

  /** The SSP behind SSPClient. Its replies may fail in any way and a write may latch anything at all. */
  class Client {
    var regs: Registers
    /** The registers as they were when the bias was last applied. */
    var applied: Registers
    var transactions: nat
    const replies: nat -> Reply
    const latch: (nat, int) -> nat
    /** The PDTS status at each transaction. */
    const status: nat -> nat

    /** Every transaction comes back well and every register latches what it is sent. */
    ghost predicate Faithful() {
      && (forall k :: replies(k) == Fine)
      && (forall a: nat, v: int :: v >= 0 ==> latch(a, v) == v)
    }

    /** The endpoint always shows the running status. */
    ghost predicate Running() { forall k :: status(k) % 16 == 0x8 }

    /** SSPClient.read; false stands for the exception. The status register moves on its own. */
    method Read(address: nat) returns (ok: bool, value: nat)
      requires address in regs || address == PDTS_STATUS
      modifies this`transactions
      ensures transactions == old(transactions) + 1
      ensures ok <==> replies(old(transactions)) == Fine
      ensures Faithful() ==> ok
      ensures ok ==> value == if address == PDTS_STATUS then status(old(transactions)) else regs[address]
    {
      value := if address == PDTS_STATUS then status(transactions) else regs[address];
      ok := replies(transactions).Fine?;
      transactions := transactions + 1;
    }

    /** A write that both its reply and its readback confirm. */
    ghost predicate Confirmed(address: nat, value: int, k: nat) {
      && 0 <= value < 0x1_0000_0000
      && (replies(k).Fine? || replies(k).NoPayload?)
      && (address != BIAS_CONTROL ==> replies(k + 1).Fine? && latch(address, value) == value)
    }

    /** Such a write fits a word, is not answered amiss, and, but for the bias control, reads back well and the same. */
    lemma ConfirmedIs(address: nat, value: int, k: nat)
      ensures Confirmed(address, value, k) <==>
              && 0 <= value <= 0xFFFF_FFFF && replies(k) != Garbled && replies(k) != Refused
              && (address == 0x40000300 || (replies(k + 1) == Fine && latch(address, value) == value))
    {
    }

    /** write_and_log: false stands for the exception, on a value that does not fit a word, a failed reply, or a
        readback that differs. The bias control is not read back. */
    method Write(address: nat, value: int) returns (ok: bool)
      requires address != PDTS_STATUS
      modifies this
      ensures ok <==> Confirmed(address, value, old(transactions))
      ensures Faithful() && 0 <= value < 0x1_0000_0000 ==> ok
      ensures transactions >= old(transactions)
      ensures ok ==> transactions == old(transactions) + if address == BIAS_CONTROL then 1 else 2
      ensures address != BIAS_CONTROL ==>
                && applied == old(applied)
                && (regs == old(regs) || regs == old(regs)[address := latch(address, value)])
                && (ok ==> regs == old(regs)[address := value])
      ensures address == BIAS_CONTROL ==> regs == old(regs) && (applied == regs || (!ok && applied == old(applied)))
    {
      if value < 0 || value >= 0x1_0000_0000 {
        return false;
      }
      var reply := replies(transactions);
      transactions := transactions + 1;
      if reply.Refused? {
        return false;
      }
      if address == BIAS_CONTROL {
        applied := regs;
      } else {
        regs := regs[address := latch(address, value)];
      }
      if reply.Garbled? {
        return false;
      }
      if address == BIAS_CONTROL {
        return true;
      }
      var read, readback := Read(address);
      ok := read && readback == value;
    }

    /** A write of the synchronisation, to one of its two registers. */
    method SyncWrite(address: nat, value: int, ghost before: Registers) returns (ok: bool)
      requires (address == PDTS_CONTROL || address == DP_CLOCK_CONTROL) && 0 <= value < 0x1_0000_0000
      requires SyncOnly(before, regs) && SyncPresent(regs)
      modifies this
      ensures SyncOnly(before, regs) && SyncPresent(regs) && applied == old(applied)
      ensures ok ==> Holds(regs, address, value)
      ensures ok ==> Same(old(regs), regs, if address == PDTS_CONTROL then DP_CLOCK_CONTROL else PDTS_CONTROL)
      ensures ok ==> transactions == old(transactions) + 2
      ensures Faithful() ==> ok
    {
      hide Faithful, Confirmed;
      ghost var here := regs;
      ok := Write(address, value);
      forall a: nat | a != PDTS_CONTROL && a != DP_CLOCK_CONTROL
        ensures Same(before, regs, a)
      {
        assert Same(before, here, a);
      }
    }

    /** The reads that are only printed, the first n of status, control and clock; each may fail. */
    method Report(n: nat) returns (ok: bool)
      requires SyncPresent(regs) && 1 <= n <= 3
      modifies this`transactions
      ensures ok ==> transactions == old(transactions) + n
      ensures Faithful() ==> ok
    {
      hide Faithful;
      var shown;
      ok, shown := Read(PDTS_STATUS);
      if !ok || n == 1 { return; }
      ok, shown := Read(PDTS_CONTROL);
      if !ok || n == 2 { return; }
      ok, shown := Read(DP_CLOCK_CONTROL);
    }

    /** The first half of an attempt: internal clock and reset. */
    method SyncReset(partition: int, timing: int, ghost before: Registers) returns (ok: bool)
      requires 0 <= partition < 4 && 0 <= timing < 256
      requires SyncOnly(before, regs) && SyncPresent(regs)
      modifies this
      ensures SyncOnly(before, regs) && SyncPresent(regs) && applied == old(applied)
      ensures ok ==> transactions == old(transactions) + 7
      ensures Faithful() ==> ok
    {
      hide Faithful, SyncOnly;
      ok := SyncWrite(DP_CLOCK_CONTROL, 0x30, before);
      if !ok { return; }
      ok := SyncWrite(PDTS_CONTROL, 0x80000000 + partition + timing * 0x10000, before);
      if !ok { return; }
      ok := Report(3);
    }

    /** The second half: the endpoint's address and the external clock. */
    method SyncRelease(partition: int, timing: int, ghost before: Registers) returns (ok: bool)
      requires 0 <= partition < 4 && 0 <= timing < 256
      requires SyncOnly(before, regs) && SyncPresent(regs)
      modifies this
      ensures SyncOnly(before, regs) && SyncPresent(regs) && applied == old(applied)
      ensures ok ==> Holds(regs, PDTS_CONTROL, partition + timing * 0x10000) && Holds(regs, DP_CLOCK_CONTROL, 0x31)
      ensures ok ==> transactions == old(transactions) + 6
      ensures Faithful() ==> ok
    {
      hide Faithful, SyncOnly;
      ok := SyncWrite(PDTS_CONTROL, partition + timing * 0x10000, before);
      if !ok { return; }
      ok := Report(2);
      if !ok { return; }
      ok := SyncWrite(DP_CLOCK_CONTROL, 0x31, before);
    }

    /** One attempt of sync_pdts; near says whether the status settled in time. */
    method SyncAttempt(partition: int, timing: int, ghost before: Registers) returns (ok: bool, near: bool)
      requires 0 <= partition < 4 && 0 <= timing < 256
      requires SyncOnly(before, regs) && SyncPresent(regs)
      modifies this
      ensures SyncOnly(before, regs) && SyncPresent(regs) && applied == old(applied)
      ensures ok ==> Holds(regs, PDTS_CONTROL, partition + timing * 0x10000) && Holds(regs, DP_CLOCK_CONTROL, 0x31)
      ensures ok ==> transactions == old(transactions) + 14 && (near <==> 0x6 <= status(old(transactions) + 13) % 16 <= 0x8)
      ensures Faithful() ==> ok
    {
      hide Faithful, SyncOnly, Holds;
      near := false;
      ok := SyncReset(partition, timing, before);
      if !ok { return; }
      ok := SyncRelease(partition, timing, before);
      if !ok { return; }
      var value;
      ok, value := Read(PDTS_STATUS);
      near := NearlyRunning(value);
    }

    lemma FromTheStart(t: nat)
      ensures EndsAt(t, true, t)
    {
    }

    /** The status the a-th attempt from transaction t ends with, if all its transactions come back. */
    ghost predicate Settles(t: nat, a: nat) { 0x6 <= status(t + 14 * a + 13) % 16 <= 0x8 }

    /** Up to five attempts, until the status settles. With a faithful device it is the first of the five to settle
        that ends them. */
    method SyncRetries(partition: int, timing: int, ghost before: Registers) returns (ok: bool)
      requires 0 <= partition < 4 && 0 <= timing < 256
      requires SyncOnly(before, regs) && SyncPresent(regs)
      modifies this
      ensures SyncOnly(before, regs) && SyncPresent(regs) && applied == old(applied)
      ensures ok ==> Holds(regs, PDTS_CONTROL, partition + timing * 0x10000) && Holds(regs, DP_CLOCK_CONTROL, 0x31)
      ensures Faithful() ==>
                if ok then EndsAt(old(transactions), false, transactions) else forall here :: !EndsAt(old(transactions), false, here)
    {
      hide Faithful, SyncOnly, Holds;
      for attempt := 0 to 5
        invariant SyncOnly(before, regs) && SyncPresent(regs) && applied == old(applied)
        invariant transactions == old(transactions) + 14 * attempt
        invariant forall a: nat :: a < attempt ==> !Settles(old(transactions), a)
      {
        var near;
        ok, near := SyncAttempt(partition, timing, before);
        if !ok { return; }
        assert near <==> Settles(old(transactions), attempt);
        if near { return; }
      }
      ok := false;
    }

    /** The attempts from transaction t, if any are needed, end well at transaction here: the first to settle is one of
        five. */
    ghost predicate EndsAt(t: nat, synced: bool, here: nat) {
      if synced then here == t
      else exists a: nat :: a < 5 && here == t + 14 * a + 14 && Settles(t, a) && forall b: nat :: b < a ==> !Settles(t, b)
    }

    lemma EndsOnce(t: nat, synced: bool, here: nat)
      requires EndsAt(t, synced, here)
      ensures forall there :: EndsAt(t, synced, there) ==> there == here
    {
      hide Settles;
    }

    /** One of three looks from transaction t finds the endpoint running. */
    ghost predicate SeenRunning(t: nat) { ShowsRunning(t) || ShowsRunning(t + 1) || ShowsRunning(t + 2) }

    ghost predicate ShowsRunning(k: nat) { status(k) % 16 == 0x8 }

    /** Nothing to synchronise: status, selection and clock are as asked. */
    ghost predicate AlreadySynced(partition: int, timing: int)
      requires SyncPresent(regs)
      reads this
    {
      && 0x6 <= status(transactions) % 16 <= 0x8
      && regs[PDTS_CONTROL] / 0x10000 % 0x100 == timing && regs[PDTS_CONTROL] % 4 == partition
      && regs[DP_CLOCK_CONTROL] % 16 == 0x1
    }

    /** sync_pdts up to its last looks: the retries are made only if there is something to do. */
    method Synchronise(partition: int, timing: int) returns (ok: bool)
      requires 0 <= partition < 4 && 0 <= timing < 256 && SyncPresent(regs)
      modifies this
      ensures SyncOnly(old(regs), regs) && SyncPresent(regs) && applied == old(applied)
      ensures old(AlreadySynced(partition, timing)) ==> regs == old(regs)
      ensures ok && !old(AlreadySynced(partition, timing)) ==>
                regs[PDTS_CONTROL] == partition + timing * 0x10000 && regs[DP_CLOCK_CONTROL] == 0x31
      ensures Faithful() ==>
                var t, synced := old(transactions) + 3, old(AlreadySynced(partition, timing));
                if ok then EndsAt(t, synced, transactions) else forall here :: !EndsAt(t, synced, here)
    {
      hide Faithful, Confirmed, SyncOnly, EndsAt;
      ghost var before := regs;
      FromTheStart(transactions + 3);
      SyncNothing(before);
      var pdtsStatus, pdtsControl, clockControl;
      ok, pdtsStatus := Read(PDTS_STATUS);
      if !ok { return; }
      ok, pdtsControl := Read(PDTS_CONTROL);
      if !ok { return; }
      ok, clockControl := Read(DP_CLOCK_CONTROL);
      if !ok { return; }
      if !(NearlyRunning(pdtsStatus) && Selects(pdtsControl, partition, timing) && clockControl % 16 == 1) {
        ok := SyncRetries(partition, timing, before);
      }
    }

    /** sync_pdts: when it succeeds the endpoint is selected, runs from an external clock, and showed the running
        status at the last look; nothing but the two PDTS registers was touched, and not even these if there was
        nothing to do. With a faithful device it is up to the status alone whether it succeeds. */
    method SyncPdts(partition: int, timing: int) returns (ok: bool)
      requires 0 <= partition < 4 && 0 <= timing < 256 && SyncPresent(regs)
      modifies this
      ensures SyncOnly(old(regs), regs) && SyncPresent(regs) && applied == old(applied)
      ensures ok ==>
                && regs[PDTS_CONTROL] / 0x10000 % 0x100 == timing && regs[PDTS_CONTROL] % 4 == partition
                && regs[DP_CLOCK_CONTROL] % 16 == 1
      ensures ok ==> transactions > 0 && status(transactions - 1) % 16 == 0x8
      ensures old(AlreadySynced(partition, timing)) ==> regs == old(regs)
      ensures ok && !old(AlreadySynced(partition, timing)) ==>
                regs[PDTS_CONTROL] == partition + timing * 0x10000 && regs[DP_CLOCK_CONTROL] == 0x31
      ensures Faithful() ==>
                (ok <==> exists here ::
                   EndsAt(old(transactions) + 3, old(AlreadySynced(partition, timing)), here) && SeenRunning(here))
    {
      hide Faithful, SyncOnly, EndsAt, SeenRunning;
      ghost var t, synced := transactions + 3, AlreadySynced(partition, timing);
      SelectionDecodes(partition, timing);
      ok := Synchronise(partition, timing);
      if !ok { return; }
      ghost var here := transactions;
      if EndsAt(t, synced, here) {
        EndsOnce(t, synced, here);
      }
      ok := LookForRunning();
    }

    /** So it succeeds on a faithful device whose endpoint runs. */
    lemma RunningEnds(t: nat, synced: bool)
      requires Running()
      ensures exists here :: EndsAt(t, synced, here) && SeenRunning(here)
    {
      assert Settles(t, 0) && ShowsRunning(t) && ShowsRunning(t + 14);
      var here := if synced then t else t + 14;
      assert EndsAt(t, synced, here) && SeenRunning(here);
    }

    /** The last three looks. */
    method LookForRunning() returns (ok: bool)
      modifies this`transactions
      ensures ok ==> transactions > 0 && status(transactions - 1) % 16 == 0x8
      ensures Faithful() ==> (ok <==> SeenRunning(old(transactions)))
    {
      hide Faithful;
      for look := 0 to 3
        invariant transactions == old(transactions) + look
        invariant look > 0 ==> !ShowsRunning(old(transactions))
        invariant look > 1 ==> !ShowsRunning(old(transactions) + 1)
        invariant look > 2 ==> !ShowsRunning(old(transactions) + 2)
      {
        var value;
        ok, value := Read(PDTS_STATUS);
        if !ok { return; }
        if value % 16 == 0x8 {
          return true;
        }
      }
      ok := false;
    }

    /** The sixteen command delays. */
    method SetCommandDelays() returns (ok: bool)
      modifies this
      ensures applied == old(applied)
      ensures ok ==> forall i: nat :: i < 16 ==> Holds(regs, PDTS_CMD_DELAY_0 + 4 * i, 0x30036)
      ensures Faithful() ==> ok
      ensures forall a: nat :: !CommandDelay(a) ==> Same(old(regs), regs, a)
    {
      hide Faithful, Confirmed;
      for index := 0 to 16
        invariant applied == old(applied)
        invariant forall i: nat :: i < index ==> Holds(regs, PDTS_CMD_DELAY_0 + 4 * i, 0x30036)
        invariant forall a: nat :: !CommandDelay(a) ==> Same(old(regs), regs, a)
      {
        ok := Write(PDTS_CMD_DELAY_0 + index * 4, 0x30036);
        if !ok { return; }
      }
      ok := true;
    }

    method ConfigurePdtsRegisterBlock() returns (ok: bool)
      modifies this
      ensures applied == old(applied)
      ensures ok ==> PdtsProgrammed(regs)
      ensures ok ==> Holds(regs, 0x80000464, 0x2E7) && Holds(regs, 0x80000468, 0x8000_0000) && Holds(regs, 0x80000520, 0x11)
      ensures ok ==> forall i: nat :: i < 16 ==> Holds(regs, 0x80000940 + 4 * i, 0x30036)
      ensures Faithful() ==> ok
      ensures forall a: nat :: !PdtsBlock(a) ==> Same(old(regs), regs, a)
    {
      hide Faithful, Confirmed;
      ok := Write(PDTS_CMD_CONTROL_1, 0x2E7);
      if !ok { return; }
      ok := SetCommandDelays();
      assert !CommandDelay(PDTS_CMD_CONTROL_1);
      if !ok { return; }
      ok := Write(PDTS_CMD_CONTROL_2, 0x80000000);
      if !ok { return; }
      ok := Write(DP_CLOCK_CONTROL, 0x11);
    }

    /** One turn of configure_run's loop. */
    method ProgramChannel(cfg: Config, counter: nat) returns (ok: bool)
      requires Valid(cfg) && counter < cfg.numberChannels && Image(regs, cfg, counter)
      modifies this
      ensures applied == old(applied)
      ensures ok ==> Image(regs, cfg, counter + 1)
      ensures ok ==> forall channels :: AsksFor(cfg, channels) ==> Turn(regs, cfg, channels, counter)
      ensures Faithful() ==> ok
      ensures forall a: nat :: !InBanks(cfg.numberChannels, a) ==> Same(old(regs), regs, a)
    {
      hide Enabled, Single, Valid, Image, Holds, Faithful, Confirmed, AsksFor, Turn;
      ValidRanges(cfg, counter);
      var biasAddress, timingAddress := BiasAddress(cfg.numberChannels, counter), TimingAddress(cfg.numberChannels, counter);
      var timing := if Single(cfg) then 0xF0000000 else 0x90000000;
      if Enabled(cfg, counter) {
        ImageOn(regs, cfg, counter);
        var bias := 0x40000;
        if counter < 6 {
          bias := bias + cfg.pulseBiasPercent270nm;
        } else {
          bias := bias + cfg.pulseBiasPercent367nm / 2;
        }
        timing := timing + cfg.pulse1WidthTicks;
        timing := timing + cfg.pulse2WidthTicks * 0x100;
        timing := timing + cfg.doublePulseDelayTicks * 0x10000;
        ok := Write(biasAddress, bias);
        if !ok { return; }
        if counter == 7 && !Enabled(cfg, counter - 1) {
          ok := Write(biasAddress - 4, bias);
          if !ok { return; }
        }
        ok := Write(timingAddress, timing);
        if ok { TurnIs(regs, cfg, counter); }
      } else {
        ImageOff(regs, cfg, counter);
        ok := Write(biasAddress, 0);
        if !ok { return; }
        ok := Write(timingAddress, 0);
        if ok { TurnIs(regs, cfg, counter); }
      }
    }

    /** configure_run. If every transaction came back and every write was confirmed, the addressed banks equal
        the image, the bias was applied last, any synchronisation asked for holds, and nothing else but the
        control registers was touched. */
    method ConfigureRun(cfg: Config) returns (ok: bool)
      requires Valid(cfg)
      requires cfg.pdtsSync ==> SyncPresent(regs)
      modifies this
      ensures OthersKept(old(regs), regs, cfg.numberChannels)
      ensures ok ==> Image(regs, cfg, cfg.numberChannels) && applied == regs
      ensures ok ==> forall channels, c: nat :: AsksFor(cfg, channels) && c < cfg.numberChannels ==> ChannelSet(regs, cfg, channels, c)
      ensures ok ==> Holds(regs, 0x80000448, if cfg.pulseMode == "single" then 1 else cfg.burstCount)
      ensures ok ==> PdtsProgrammed(regs)
      ensures ok && cfg.moduleId.Some? ==> Holds(regs, 0x80000024, cfg.moduleId.value)
      ensures ok && cfg.pdtsSync ==>
                && 0x800004C0 in regs && regs[0x800004C0] / 0x10000 % 0x100 == cfg.timingAddress.value
                && regs[0x800004C0] % 4 == cfg.partitionNumber.value
      ensures !ok ==> applied == old(applied) || applied == regs
      ensures Faithful() && (cfg.moduleId.Some? ==> 0 <= cfg.moduleId.value < 0x1_0000_0000) && (cfg.pdtsSync ==> Running()) ==> ok
    {
      hide Enabled, Image, PdtsProgrammed, Valid, Prepared, Faithful, Confirmed, AsksFor, ChannelSet;
      ImageStarts(cfg);
      ValidParts(cfg);
      ok := Prepare(cfg);
      if !ok { return; }
      for counter := 0 to cfg.numberChannels
        invariant Image(regs, cfg, counter) && applied == old(applied)
        invariant OthersKept(old(regs), regs, cfg.numberChannels) && Prepared(regs, cfg)
      {
        ghost var before := regs;
        ok := ProgramChannel(cfg, counter);
        if !ok { return; }
        PreparedStays(before, regs, cfg);
      }
      PreparedParts(regs, cfg);
      ImageSays(regs, cfg);
      ok := Write(BIAS_CONTROL, 1);
    }

    /** sync_pdts as configure_run needs it. */
    method SyncRunning(partition: int, timing: int) returns (ok: bool)
      requires 0 <= partition < 4 && 0 <= timing < 256 && SyncPresent(regs)
      modifies this
      ensures applied == old(applied) && forall a: nat :: !Control(a) ==> Same(old(regs), regs, a)
      ensures ok ==> PDTS_CONTROL in regs && Selects(regs[PDTS_CONTROL], partition, timing)
      ensures Faithful() && Running() ==> ok
    {
      hide Faithful, SyncOnly, EndsAt, SeenRunning, Running;
      if Running() {
        RunningEnds(transactions + 3, AlreadySynced(partition, timing));
      }
      ok := SyncPdts(partition, timing);
      SyncIsControl(old(regs), regs);
    }

    /** What configure_run does before its loop. */
    method Prepare(cfg: Config) returns (ok: bool)
      requires Valid(cfg)
      requires cfg.pdtsSync ==> SyncPresent(regs)
      modifies this
      ensures applied == old(applied)
      ensures forall a: nat :: !Control(a) ==> Same(old(regs), regs, a)
      ensures ok ==> Prepared(regs, cfg)
      ensures Faithful() && ModuleFits(cfg) && (cfg.pdtsSync ==> Running()) ==> ok
    {
      hide Enabled, Single, PdtsProgrammed, Selects, Valid, Faithful, Confirmed, Running;
      ValidParts(cfg);
      if cfg.pdtsSync {
        ok := SyncRunning(cfg.partitionNumber.value, cfg.timingAddress.value);
        if !ok { return; }
      }
      if cfg.moduleId.Some? {
        ok := Write(MODULE_ID, cfg.moduleId.value);
        if !ok { return; }
      }
      ok := ConfigurePdtsRegisterBlock();
      if !ok { return; }
      assert !PdtsBlock(MODULE_ID) && !PdtsBlock(PDTS_CONTROL);
      ghost var before := regs;
      ok := Write(CAL_COUNT, if Single(cfg) then 1 else cfg.burstCount);
      if !ok { return; }
      PdtsStays(before, regs);
    }

    /** stop_run: all twelve slots of both banks are zero, and the zeros are applied. */
    method StopRun() returns (ok: bool)
      modifies this
      ensures forall a: nat :: !InBanks(12, a) ==> Same(old(regs), regs, a)
      ensures ok ==> Dark(regs, 12) && applied == regs
      ensures Faithful() ==> ok
    {
      hide Faithful, Confirmed;
      for counter := 0 to 12
        invariant Dark(regs, counter)
        invariant forall a: nat :: !InBanks(12, a) ==> Same(old(regs), regs, a)
      {
        ok := Write(0x40000340 + 0x4 * counter, 0);
        if !ok { return; }
        ok := Write(0x800003C0 + 0x4 * counter, 0);
        if !ok { return; }
      }
      ok := Write(BIAS_CONTROL, 1);
    }
  }

  lemma ValidRanges(cfg: Config, c: nat)
    requires Valid(cfg) && c < cfg.numberChannels
    ensures cfg.numberChannels == 5 || cfg.numberChannels == 12
    ensures 0 <= BiasWord(cfg, c) < 0x1_0000_0000 && 0 <= TimingWord(cfg, c) < 0x1_0000_0000
  {
    TimingDecodes(cfg, c);
    hide Enabled, Single;
  }

  /** The first n slots of the twelve-channel layout are zero. */
  ghost predicate Dark(regs: Registers, n: nat) {
    forall slot: nat :: slot < n ==> Holds(regs, BiasAddress(12, slot), 0) && Holds(regs, TimingAddress(12, slot), 0)
  }

  /** After a stop no register that a run of either layout can have set still drives a channel. */
  lemma StopCoversBothLayouts(regs: Registers, cfg: Config, c: nat)
    requires Dark(regs, 12) && Valid(cfg) && c < cfg.numberChannels
    ensures Holds(regs, BiasAddress(cfg.numberChannels, c), 0) && Holds(regs, TimingAddress(cfg.numberChannels, c), 0)
    ensures Holds(regs, (if cfg.numberChannels == 5 then 0x4000035C else 0x40000340) + 4 * c, 0)
    ensures Holds(regs, (if cfg.numberChannels == 5 then 0x800003DC else 0x800003C0) + 4 * c, 0)
  {
    AddressesAre(cfg.numberChannels, c);
    hide BiasAddress, TimingAddress;
    LayoutsNest(cfg.numberChannels, c);
    var slot: nat :| slot < 12 && BiasAddress(cfg.numberChannels, c) == BiasAddress(12, slot)
                     && TimingAddress(cfg.numberChannels, c) == TimingAddress(12, slot);
  }

  lemma AddressesAre(n: int, c: nat)
    ensures BiasAddress(n, c) == (if n == 5 then 0x4000035C else 0x40000340) + 4 * c
    ensures TimingAddress(n, c) == (if n == 5 then 0x800003DC else 0x800003C0) + 4 * c
  {
  }

  /** What a run programmed can be read off its banks: which channels pulse, how, and how strongly. */
  lemma ImageDeterminesRun(regs: Registers, cfg: Config, cfg': Config, channels: set<nat>, channels': set<nat>, c: nat)
    requires Valid(cfg) && Valid(cfg') && cfg.numberChannels == cfg'.numberChannels && c < cfg.numberChannels
    requires AsksFor(cfg, channels) && AsksFor(cfg', channels')
    requires Image(regs, cfg, cfg.numberChannels) && Image(regs, cfg', cfg.numberChannels)
    ensures c in channels <==> c in channels'
    ensures c in channels ==>
              && cfg.pulseMode == cfg'.pulseMode
              && (c < 6 ==> cfg.pulseBiasPercent270nm == cfg'.pulseBiasPercent270nm)
              && (c >= 6 ==> cfg.pulseBiasPercent367nm / 2 == cfg'.pulseBiasPercent367nm / 2)
              && cfg.pulse1WidthTicks == cfg'.pulse1WidthTicks && cfg.pulse2WidthTicks == cfg'.pulse2WidthTicks
              && cfg.doublePulseDelayTicks == cfg'.doublePulseDelayTicks
  {
    EnabledIs(cfg, channels, c);
    EnabledIs(cfg', channels', c);
    hide Enabled, TimingWord, AsksFor;
    TimingDecodes(cfg, c);
    TimingDecodes(cfg', c);
    if Enabled(cfg, c) {
      TimingIsInjective(cfg, cfg', c);
    }
  }

  /** Any channel whose bias is on although it does not pulse is channel 6, lit for channel 7. */
  lemma BiasWithoutPulse(regs: Registers, cfg: Config, c: nat)
    requires Valid(cfg) && Image(regs, cfg, cfg.numberChannels) && c < cfg.numberChannels
    ensures Holds(regs, TimingAddress(cfg.numberChannels, c), 0) && !Holds(regs, BiasAddress(cfg.numberChannels, c), 0)
        <==> Borrowed(cfg, c)
    ensures Borrowed(cfg, c) ==>
              && Holds(regs, BiasAddress(12, 6), 0x40000 + cfg.pulseBiasPercent367nm / 2)
              && Holds(regs, BiasAddress(12, 7), 0x40000 + cfg.pulseBiasPercent367nm / 2)
  {
    hide TimingWord, Enabled, Single;
    TimingDecodes(cfg, c);
    if Borrowed(cfg, c) {
      assert BiasWord(cfg, 7) == 0x40000 + cfg.pulseBiasPercent367nm / 2;
    }
  }
}
