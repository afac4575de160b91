/** The address and bit-field dictionary of the FPGA registers, srcs/FpgaRegDict.cpp. */
module FpgaRegDict {

  import opened BitField
  import opened Wrappers

  /** Register names; a number in the name is an argument here. */
  datatype Name =
    | AfeGlobalControl | AfeControl(afe: nat) | AfeDacTrim(afe: nat) | AfeDacOffset(afe: nat)
    | DacGainBiasControl | DacGainBiasU50 | DacGainBiasU53 | DacGainBiasU5
    | SpyBuffer(afe: nat, ch: nat) | Timestamp(n: nat)
    | EndpointClockControl | EndpointClockStatus | EndpointControl | EndpointStatus
    | FrontendControl | FrontendStatus | FrontendTrigger | FrontendDelay(afe: nat) | FrontendBitslip(afe: nat)
    | FanControl | FanReadSpeed(n: nat) | BiasEnable | MuxEnable | MuxAddress | Led | Git
    | TriggerEnableLow | TriggerEnableHigh | IdLink | IdSlot | IdCrate | IdDetector | IdVersion
    | AdHocTriggerCommand | SelfTriggerFullConfigLow | SelfTriggerFullConfigHigh | MatchingTriggerTemplate(n: nat)
    | TenGigabitSender

  /** Bit names. */
  datatype Field =
    | RESET | POWERSTATE | BUSY | BUSY_AFE0 | BUSY_AFE12 | BUSY_AFE34 | DATA | DATAL | DATAH | GO | BUFFER | GAIN | CHANNEL
    | VALUE | SOFT_RESET | MMCM_RESET | CLOCK_SOURCE | MMCM0_LOCKED | MMCM1_LOCKED | ADDRESS | TIMESTAMP_OK | FSM_STATUS
    | DELAY_EN_VTC | SERDES_RESET | DELAYCTRL_RESET | DELAYCTRL_READY | DELAY | BITSLIP | FAN_CTRL | SPEED | ENABLE
    | ENABLE0 | ENABLE1 | LED | GIT | ID

  /** The bit fields of a register: name, lowest and highest bit. */
  datatype Fields = End | At(field: Field, low: Place, high: Place, more: Fields)

  datatype Entry = Entry(address: nat, fields: Fields)

  /** The names the dictionary holds. */
  predicate Known(name: Name) {
    match name
    case AfeControl(afe) => afe < 5
    case AfeDacTrim(afe) => afe < 5
    case AfeDacOffset(afe) => afe < 5
    case SpyBuffer(afe, ch) => afe < 5 && ch < 9
    case Timestamp(n) => n < 4
    case FrontendDelay(afe) => afe < 5
    case FrontendBitslip(afe) => afe < 5
    case FanReadSpeed(n) => n < 2
    case MatchingTriggerTemplate(n) => n < 16
    case _ => true
  }

  /** The address part of the dictionary, relative to the mapped base. */
  function Address(name: Name): (address: nat)
  {
    match name
    case AfeGlobalControl => 0x0000000
    case AfeControl(afe) => 0x0000004 + afe * 0xC
    case AfeDacTrim(afe) => 0x0000008 + afe * 0xC
    case AfeDacOffset(afe) => 0x000000C + afe * 0xC
    case DacGainBiasControl => 0xC000000
    case DacGainBiasU50 => 0xC000004
    case DacGainBiasU53 => 0xC000008
    case DacGainBiasU5 => 0xC00000C
    case SpyBuffer(afe, ch) => 0x10000000 + afe * 0x9000 + ch * 0x1000
    case Timestamp(n) => 0x1002D000 + n * 0x1000
    case EndpointClockControl => 0x4000000
    case EndpointClockStatus => 0x4000004
    case EndpointControl => 0x4000008
    case EndpointStatus => 0x400000C
    case FrontendControl => 0x8000000
    case FrontendStatus => 0x8000004
    case FrontendTrigger => 0x8000008
    case FrontendDelay(afe) => 0x800000C + afe * 0x4
    case FrontendBitslip(afe) => 0x8000020 + afe * 0x4
    case TenGigabitSender => 0x18000000
    case FanControl => 0x14000000
    case FanReadSpeed(n) => 0x14000004 + n * 0x4
    case BiasEnable => 0x1400000C
    case MuxEnable => 0x14000010
    case MuxAddress => 0x14000014
    case Led => 0x14000018
    case Git => 0x1400001C
    case TriggerEnableLow => 0x14000020
    case TriggerEnableHigh => 0x14000024
    case IdLink => 0x14000028
    case IdSlot => 0x1400002C
    case IdCrate => 0x14000030
    case IdDetector => 0x14000034
    case IdVersion => 0x14000038
    case AdHocTriggerCommand => 0x1400003C
    case SelfTriggerFullConfigLow => 0x14000040
    case SelfTriggerFullConfigHigh => 0x14000044
    case MatchingTriggerTemplate(n) => 0x14000048 + n * 0x4
  }

  /** The bit-field part of the dictionary. */
  function FieldsOf(name: Name): Fields
  {
    match name
    case AfeGlobalControl => At(RESET, 0, 0, At(POWERSTATE, 1, 1, At(BUSY, 2, 4, At(BUSY_AFE0, 2, 2, At(BUSY_AFE12, 3, 3, At(BUSY_AFE34, 4, 4, End))))))
    case AfeControl(_) => At(DATA, 0, 23, End)
    case AfeDacTrim(_) => At(DATA, 0, 31, End)
    case AfeDacOffset(_) => At(DATA, 0, 31, End)
    case DacGainBiasControl => At(BUSY, 0, 0, At(GO, 1, 1, End))
    case DacGainBiasU50 => At(DATA, 0, 11, At(BUFFER, 12, 12, At(GAIN, 13, 13, At(CHANNEL, 14, 15, End))))
    case DacGainBiasU53 => At(DATA, 0, 11, At(BUFFER, 12, 12, At(GAIN, 13, 13, At(CHANNEL, 14, 15, End))))
    case DacGainBiasU5 => At(DATA, 0, 11, At(BUFFER, 12, 12, At(GAIN, 13, 13, At(CHANNEL, 14, 15, End))))
    case SpyBuffer(_, _) => At(DATA, 0, 15, At(DATAL, 2, 15, At(DATAH, 18, 31, End)))
    case Timestamp(_) => At(VALUE, 0, 15, End)
    case EndpointClockControl => At(SOFT_RESET, 0, 0, At(MMCM_RESET, 1, 1, At(CLOCK_SOURCE, 2, 2, End)))
    case EndpointClockStatus => At(MMCM0_LOCKED, 0, 0, At(MMCM1_LOCKED, 1, 1, End))
    case EndpointControl => At(RESET, 16, 16, At(ADDRESS, 0, 15, End))
    case EndpointStatus => At(TIMESTAMP_OK, 4, 4, At(FSM_STATUS, 0, 3, End))
    case FrontendControl => At(DELAY_EN_VTC, 2, 2, At(SERDES_RESET, 1, 1, At(DELAYCTRL_RESET, 0, 0, End)))
    case FrontendStatus => At(DELAYCTRL_READY, 0, 0, End)
    case FrontendTrigger => At(GO, 0, 0, End)
    case FrontendDelay(_) => At(DELAY, 0, 8, End)
    case FrontendBitslip(_) => At(BITSLIP, 0, 3, End)
    case TenGigabitSender => At(DATA, 0, 3, End)
    case FanControl => At(FAN_CTRL, 0, 7, End)
    case FanReadSpeed(_) => At(SPEED, 0, 11, End)
    case BiasEnable => At(ENABLE, 0, 0, End)
    case MuxEnable => At(ENABLE0, 0, 0, At(ENABLE1, 1, 1, End))
    case MuxAddress => At(ADDRESS, 0, 1, End)
    case Led => At(LED, 0, 5, End)
    case Git => At(GIT, 0, 27, End)
    case TriggerEnableLow => At(DATA, 0, 31, End)
    case TriggerEnableHigh => At(DATA, 0, 7, End)
    case IdLink => At(ID, 0, 5, End)
    case IdSlot => At(ID, 0, 3, End)
    case IdCrate => At(ID, 0, 9, End)
    case IdDetector => At(ID, 0, 5, End)
    case IdVersion => At(ID, 0, 5, End)
    case AdHocTriggerCommand => At(VALUE, 0, 7, End)
    case SelfTriggerFullConfigLow => At(VALUE, 0, 31, End)
    case SelfTriggerFullConfigHigh => At(VALUE, 0, 31, End)
    case MatchingTriggerTemplate(_) => At(VALUE, 0, 27, End)
  }

  /** The register an address belongs to, undoing Address. */
  function NameAt(address: nat): Name {
    if address < 0x4000000 then
      if address < 4 then AfeGlobalControl
      else
        var afe, which := (address - 4) / 0xC, (address - 4) % 0xC;
        if which == 0 then AfeControl(afe) else if which == 4 then AfeDacTrim(afe) else AfeDacOffset(afe)
    else if address < 0x8000000 then
      if address == 0x4000000 then EndpointClockControl else if address == 0x4000004 then EndpointClockStatus
      else if address == 0x4000008 then EndpointControl else EndpointStatus
    else if address < 0xC000000 then
      if address == 0x8000000 then FrontendControl else if address == 0x8000004 then FrontendStatus
      else if address < 0x800000C then FrontendTrigger
      else if address < 0x8000020 then FrontendDelay((address - 0x800000C) / 4)
      else FrontendBitslip((address - 0x8000020) / 4)
    else if address < 0x10000000 then
      if address == 0xC000000 then DacGainBiasControl else if address == 0xC000004 then DacGainBiasU50
      else if address == 0xC000008 then DacGainBiasU53 else DacGainBiasU5
    else if address < 0x1002D000 then SpyBuffer((address - 0x10000000) / 0x9000, (address - 0x10000000) % 0x9000 / 0x1000)
    else if address < 0x14000000 then Timestamp((address - 0x1002D000) / 0x1000)
    else if address < 0x14000020 then
      if address < 0x14000004 then FanControl
      else if address < 0x1400000C then FanReadSpeed((address - 0x14000004) / 4)
      else if address == 0x1400000C then BiasEnable else if address == 0x14000010 then MuxEnable
      else if address == 0x14000014 then MuxAddress else if address == 0x14000018 then Led else Git
    else if address < 0x14000048 then
      if address == 0x14000020 then TriggerEnableLow else if address == 0x14000024 then TriggerEnableHigh
      else if address == 0x14000028 then IdLink else if address == 0x1400002C then IdSlot
      else if address == 0x14000030 then IdCrate else if address == 0x14000034 then IdDetector
      else if address == 0x14000038 then IdVersion else if address == 0x1400003C then AdHocTriggerCommand
      else if address == 0x14000040 then SelfTriggerFullConfigLow else SelfTriggerFullConfigHigh
    else if address < 0x18000000 then MatchingTriggerTemplate((address - 0x14000048) / 4)
    else TenGigabitSender
  }

  /** How far a register reaches: a spy buffer or timestamp has a page of 0x1000 bytes to itself. */
  function Extent(name: Name): nat { if name.SpyBuffer? || name.Timestamp? then 0x1000 else 4 }

  lemma SpyPlace(afe: nat, ch: nat, offset: nat)
    requires afe < 5 && ch < 9 && offset < 0x1000
    ensures var x := afe * 0x9000 + ch * 0x1000 + offset; x / 0x9000 == afe && x % 0x9000 / 0x1000 == ch
  {
  }

  lemma RowPlace(afe: nat, which: nat)
    requires which < 0xC
    ensures (afe * 0xC + which) / 0xC == afe && (afe * 0xC + which) % 0xC == which
  {
  }

  /** The layout is injective, and no register lies in the page of another. */
  lemma NameAtAddress(name: Name, offset: nat)
    requires Known(name) && offset < Extent(name) && offset % 4 == 0
    ensures NameAt(Address(name) + offset) == name
  {
    match name
    case SpyBuffer(afe, ch) => SpyPlace(afe, ch, offset);
    case AfeControl(afe) => RowPlace(afe, 0);
    case AfeDacTrim(afe) => RowPlace(afe, 4);
    case AfeDacOffset(afe) => RowPlace(afe, 8);
    case _ =>
  }

  /** No two registers share a word. */
  lemma AddressesApart(a: Name, b: Name, i: nat, j: nat)
    requires Known(a) && Known(b) && i < Extent(a) && j < Extent(b) && i % 4 == 0 && j % 4 == 0
    requires Address(a) + i == Address(b) + j
    ensures a == b
  {
    hide Address, Known, NameAt, Extent;
    NameAtAddress(a, i);
    NameAtAddress(b, j);
  }

  datatype Range = Range(low: Place, high: Place)

  /** The entry for a bit name. */
  function Find(fields: Fields, f: Field): (r: Option<Range>)
    ensures FieldsFit(fields) && r.Some? ==> r.value.low <= r.value.high < 32
  {
    match fields
    case End => None
    case At(g, low, high, more) => if g == f then Some(Range(low, high)) else Find(more, f)
  }

  /** Every field below the first is apart from it, and so on down. */
  predicate Disjoint(fields: Fields) {
    fields.At? ==> ClearOf(fields.low, fields.high, fields.more) && Disjoint(fields.more)
  }

  predicate ClearOf(low: Place, high: Place, fields: Fields) {
    fields.At? ==> Apart(low, high, fields.low, fields.high) && ClearOf(low, high, fields.more)
  }

  lemma {:induction false} FoundIsClear(low: Place, high: Place, fields: Fields, f: Field)
    requires ClearOf(low, high, fields) && Find(fields, f).Some?
    ensures Apart(low, high, Find(fields, f).value.low, Find(fields, f).value.high)
  {
    if fields.field != f {
      FoundIsClear(low, high, fields.more, f);
    }
  }

  lemma ApartBothWays(low: Place, high: Place, low': Place, high': Place)
    ensures Apart(low, high, low', high') <==> Apart(low', high', low, high)
  {
  }

  lemma {:induction false} DisjointFieldsApart(fields: Fields, f: Field, g: Field)
    requires Disjoint(fields) && f != g && Find(fields, f).Some? && Find(fields, g).Some?
    ensures Apart(Find(fields, f).value.low, Find(fields, f).value.high, Find(fields, g).value.low, Find(fields, g).value.high)
  {
    hide Apart;
    if fields.field == f {
      FoundIsClear(fields.low, fields.high, fields.more, g);
    } else if fields.field == g {
      FoundIsClear(fields.low, fields.high, fields.more, f);
      ApartBothWays(fields.low, fields.high, Find(fields, f).value.low, Find(fields, f).value.high);
    } else {
      DisjointFieldsApart(fields.more, f, g);
    }
  }

  /** Fields overlap in two kinds of register only: BUSY spans the three single busy bits, and DATA of a
      spy buffer spans DATAL. */
  lemma OverlapsExactly(name: Name)
    ensures Disjoint(FieldsOf(name)) <==> !name.AfeGlobalControl? && !name.SpyBuffer?
  {
  }

  predicate FieldsFit(fields: Fields) {
    fields.At? ==> fields.low <= fields.high < 32 && FieldsFit(fields.more)
  }

  lemma FieldsInWord(name: Name)
    ensures FieldsFit(FieldsOf(name))
  {
  }

  // ---- The dictionary as its constructor fills it ----

  function EntryOf(name: Name): Entry { Entry(Address(name), FieldsOf(name)) }

  ghost predicate Sound(dict: map<Name, Entry>) {
    forall name :: name in dict ==> Known(name) && dict[name] == EntryOf(name)
  }

  ghost predicate Extends(d: map<Name, Entry>, e: map<Name, Entry>) { forall name :: name in d ==> name in e }

  method AddEntry(dict: map<Name, Entry>, name: Name, address: nat, fields: Fields) returns (d: map<Name, Entry>)
    requires Sound(dict) && Known(name) && address == Address(name) && fields == FieldsOf(name)
    ensures Sound(d)
    ensures name in d && Extends(dict, d)
  {
    hide Known, Address, FieldsOf;
    d := dict[name := Entry(address, fields)];
  }

  /** The part of the constructor an entry comes from. */
  function Section(name: Name): (k: nat)
    ensures k < 11
  {
    match name
    case AfeGlobalControl => 0
    case AfeControl(_) => 0
    case AfeDacTrim(_) => 0
    case AfeDacOffset(_) => 0
    case DacGainBiasControl => 1
    case DacGainBiasU50 => 1
    case DacGainBiasU53 => 1
    case DacGainBiasU5 => 1
    case SpyBuffer(_, _) => 2
    case Timestamp(_) => 2
    case EndpointClockControl => 3
    case EndpointClockStatus => 3
    case EndpointControl => 3
    case EndpointStatus => 3
    case FrontendControl => 4
    case FrontendStatus => 4
    case FrontendTrigger => 4
    case FrontendDelay(_) => 9
    case FrontendBitslip(_) => 9
    case TenGigabitSender => 5
    case FanControl => 5
    case FanReadSpeed(_) => 5
    case BiasEnable => 5
    case MuxEnable => 6
    case MuxAddress => 6
    case Led => 6
    case Git => 6
    case TriggerEnableLow => 10
    case TriggerEnableHigh => 10
    case IdLink => 7
    case IdSlot => 7
    case IdCrate => 7
    case IdDetector => 7
    case IdVersion => 7
    case AdHocTriggerCommand => 10
    case SelfTriggerFullConfigLow => 8
    case SelfTriggerFullConfigHigh => 8
    case MatchingTriggerTemplate(_) => 8
  }

  ghost predicate Holds(d: map<Name, Entry>, k: nat) { forall name :: Known(name) && Section(name) == k ==> name in d }

  method AfeSection(dict: map<Name, Entry>) returns (d: map<Name, Entry>)
    requires Sound(dict)
    ensures Sound(d) && Extends(dict, d)
    ensures Holds(d, 0)
  {
    hide Sound;
    d := dict;
    d := AddEntry(d, AfeGlobalControl, 0x0000000, At(RESET, 0, 0, At(POWERSTATE, 1, 1, At(BUSY, 2, 4, At(BUSY_AFE0, 2, 2, At(BUSY_AFE12, 3, 3, At(BUSY_AFE34, 4, 4, End)))))));
    for afe := 0 to 5
      invariant Sound(d) && Extends(dict, d)
      invariant AfeGlobalControl in d
      invariant forall x: Name :: x.AfeControl? && x.afe < afe ==> x in d
      invariant forall x: Name :: x.AfeDacTrim? && x.afe < afe ==> x in d
      invariant forall x: Name :: x.AfeDacOffset? && x.afe < afe ==> x in d
    {
      var offset := afe * 0xC;
      d := AddEntry(d, AfeControl(afe), 0x0000004 + offset, At(DATA, 0, 23, End));
      d := AddEntry(d, AfeDacTrim(afe), 0x0000008 + offset, At(DATA, 0, 31, End));
      d := AddEntry(d, AfeDacOffset(afe), 0x000000C + offset, At(DATA, 0, 31, End));
    }
  }

  method DacSection(dict: map<Name, Entry>) returns (d: map<Name, Entry>)
    requires Sound(dict)
    ensures Sound(d) && Extends(dict, d)
    ensures Holds(d, 1)
  {
    hide Sound;
    d := dict;
    d := AddEntry(d, DacGainBiasControl, 0xC000000, At(BUSY, 0, 0, At(GO, 1, 1, End)));
    d := AddEntry(d, DacGainBiasU50, 0xC000004, At(DATA, 0, 11, At(BUFFER, 12, 12, At(GAIN, 13, 13, At(CHANNEL, 14, 15, End)))));
    d := AddEntry(d, DacGainBiasU53, 0xC000008, At(DATA, 0, 11, At(BUFFER, 12, 12, At(GAIN, 13, 13, At(CHANNEL, 14, 15, End)))));
    d := AddEntry(d, DacGainBiasU5, 0xC00000C, At(DATA, 0, 11, At(BUFFER, 12, 12, At(GAIN, 13, 13, At(CHANNEL, 14, 15, End)))));
  }

  method SpySection(dict: map<Name, Entry>) returns (d: map<Name, Entry>)
    requires Sound(dict)
    ensures Sound(d) && Extends(dict, d)
    ensures Holds(d, 2)
  {
    hide Sound;
    d := dict;
    for afe := 0 to 5
      invariant Sound(d) && Extends(dict, d)
      invariant forall x: Name :: x.SpyBuffer? && x.afe < afe && x.ch < 9 ==> x in d
    {
      var offsetAfe := afe * 0x9000;
      for ch := 0 to 9
        invariant Sound(d) && Extends(dict, d)
        invariant forall x: Name :: x.SpyBuffer? && x.afe < afe && x.ch < 9 ==> x in d
        invariant forall x: Name :: x.SpyBuffer? && x.afe == afe && x.ch < ch ==> x in d
      {
        var offset := offsetAfe + ch * 0x1000;
        d := AddEntry(d, SpyBuffer(afe, ch), 0x10000000 + offset, At(DATA, 0, 15, At(DATAL, 2, 15, At(DATAH, 18, 31, End))));
      }
    }
    d := AddEntry(d, Timestamp(0), 0x1002D000, At(VALUE, 0, 15, End));
    d := AddEntry(d, Timestamp(1), 0x1002E000, At(VALUE, 0, 15, End));
    d := AddEntry(d, Timestamp(2), 0x1002F000, At(VALUE, 0, 15, End));
    d := AddEntry(d, Timestamp(3), 0x10030000, At(VALUE, 0, 15, End));
    assert forall x: Name :: x.Timestamp? && x.n < 4 ==> x == Timestamp(0) || x == Timestamp(1) || x == Timestamp(2) || x == Timestamp(3);
  }

  method EndpointSection(dict: map<Name, Entry>) returns (d: map<Name, Entry>)
    requires Sound(dict)
    ensures Sound(d) && Extends(dict, d)
    ensures Holds(d, 3)
  {
    hide Sound;
    d := dict;
    d := AddEntry(d, EndpointClockControl, 0x4000000, At(SOFT_RESET, 0, 0, At(MMCM_RESET, 1, 1, At(CLOCK_SOURCE, 2, 2, End))));
    d := AddEntry(d, EndpointClockStatus, 0x4000004, At(MMCM0_LOCKED, 0, 0, At(MMCM1_LOCKED, 1, 1, End)));
    d := AddEntry(d, EndpointControl, 0x4000008, At(RESET, 16, 16, At(ADDRESS, 0, 15, End)));
    d := AddEntry(d, EndpointStatus, 0x400000C, At(TIMESTAMP_OK, 4, 4, At(FSM_STATUS, 0, 3, End)));
  }

  method FrontendSection(dict: map<Name, Entry>) returns (d: map<Name, Entry>)
    requires Sound(dict)
    ensures Sound(d) && Extends(dict, d)
    ensures Holds(d, 4)
  {
    hide Sound;
    d := dict;
    d := AddEntry(d, FrontendControl, 0x8000000, At(DELAY_EN_VTC, 2, 2, At(SERDES_RESET, 1, 1, At(DELAYCTRL_RESET, 0, 0, End))));
    d := AddEntry(d, FrontendStatus, 0x8000004, At(DELAYCTRL_READY, 0, 0, End));
    d := AddEntry(d, FrontendTrigger, 0x8000008, At(GO, 0, 0, End));
  }

  method TapSection(dict: map<Name, Entry>) returns (d: map<Name, Entry>)
    requires Sound(dict)
    ensures Sound(d) && Extends(dict, d)
    ensures Holds(d, 9)
  {
    hide Sound;
    d := dict;
    for afe := 0 to 5
      invariant Sound(d) && Extends(dict, d)
      invariant forall x: Name :: x.FrontendDelay? && x.afe < afe ==> x in d
      invariant forall x: Name :: x.FrontendBitslip? && x.afe < afe ==> x in d
    {
      var offset := afe * 0x4;
      d := AddEntry(d, FrontendDelay(afe), 0x800000C + offset, At(DELAY, 0, 8, End));
      d := AddEntry(d, FrontendBitslip(afe), 0x8000020 + offset, At(BITSLIP, 0, 3, End));
    }
  }

  method BoardSection(dict: map<Name, Entry>) returns (d: map<Name, Entry>)
    requires Sound(dict)
    ensures Sound(d) && Extends(dict, d)
    ensures Holds(d, 5)
  {
    hide Sound;
    d := dict;
    d := AddEntry(d, TenGigabitSender, 0x18000000, At(DATA, 0, 3, End));
    d := AddEntry(d, FanControl, 0x14000000, At(FAN_CTRL, 0, 7, End));
    d := AddEntry(d, FanReadSpeed(0), 0x14000004, At(SPEED, 0, 11, End));
    d := AddEntry(d, FanReadSpeed(1), 0x14000008, At(SPEED, 0, 11, End));
    d := AddEntry(d, BiasEnable, 0x1400000C, At(ENABLE, 0, 0, End));
    assert forall x: Name :: x.FanReadSpeed? && x.n < 2 ==> x == FanReadSpeed(0) || x == FanReadSpeed(1);
  }

  method MuxSection(dict: map<Name, Entry>) returns (d: map<Name, Entry>)
    requires Sound(dict)
    ensures Sound(d) && Extends(dict, d)
    ensures Holds(d, 6)
  {
    hide Sound;
    d := dict;
    d := AddEntry(d, MuxEnable, 0x14000010, At(ENABLE0, 0, 0, At(ENABLE1, 1, 1, End)));
    d := AddEntry(d, MuxAddress, 0x14000014, At(ADDRESS, 0, 1, End));
    d := AddEntry(d, Led, 0x14000018, At(LED, 0, 5, End));
    d := AddEntry(d, Git, 0x1400001C, At(GIT, 0, 27, End));
  }

  method IdSection(dict: map<Name, Entry>) returns (d: map<Name, Entry>)
    requires Sound(dict)
    ensures Sound(d) && Extends(dict, d)
    ensures Holds(d, 7)
  {
    hide Sound;
    d := dict;
    d := AddEntry(d, IdLink, 0x14000028, At(ID, 0, 5, End));
    d := AddEntry(d, IdSlot, 0x1400002C, At(ID, 0, 3, End));
    d := AddEntry(d, IdCrate, 0x14000030, At(ID, 0, 9, End));
    d := AddEntry(d, IdDetector, 0x14000034, At(ID, 0, 5, End));
    d := AddEntry(d, IdVersion, 0x14000038, At(ID, 0, 5, End));
  }

  method EnableSection(dict: map<Name, Entry>) returns (d: map<Name, Entry>)
    requires Sound(dict)
    ensures Sound(d) && Extends(dict, d)
    ensures Holds(d, 10)
  {
    hide Sound;
    d := dict;
    d := AddEntry(d, TriggerEnableLow, 0x14000020, At(DATA, 0, 31, End));
    d := AddEntry(d, TriggerEnableHigh, 0x14000024, At(DATA, 0, 7, End));
    d := AddEntry(d, AdHocTriggerCommand, 0x1400003C, At(VALUE, 0, 7, End));
  }

  method TriggerSection(dict: map<Name, Entry>) returns (d: map<Name, Entry>)
    requires Sound(dict)
    ensures Sound(d) && Extends(dict, d)
    ensures Holds(d, 8)
  {
    hide Sound;
    d := dict;
    d := AddEntry(d, SelfTriggerFullConfigLow, 0x14000040, At(VALUE, 0, 31, End));
    d := AddEntry(d, SelfTriggerFullConfigHigh, 0x14000044, At(VALUE, 0, 31, End));
    for n := 0 to 16
      invariant Sound(d) && Extends(dict, d)
      invariant SelfTriggerFullConfigLow in d && SelfTriggerFullConfigHigh in d
      invariant forall x: Name :: x.MatchingTriggerTemplate? && x.n < n ==> x in d
    {
      var offset := n * 0x4;
      d := AddEntry(d, MatchingTriggerTemplate(n), 0x14000048 + offset, At(VALUE, 0, 27, End));
    }
  }

  /** FpgaRegDict::FpgaRegDict: exactly the known names, each with its own address and bit ranges. */
  method BuildDictionary() returns (dict: map<Name, Entry>)
    ensures forall n :: n in dict <==> Known(n)
    ensures forall n :: n in dict ==> dict[n] == EntryOf(n)
    ensures WellLaid(dict)
  {
    hide Known, Address, FieldsOf, Section, WellLaid;
    dict := AfeSection(map[]);
    dict := DacSection(dict);
    dict := SpySection(dict);
    dict := EndpointSection(dict);
    dict := FrontendSection(dict);
    dict := TapSection(dict);
    dict := BoardSection(dict);
    dict := MuxSection(dict);
    dict := IdSection(dict);
    dict := EnableSection(dict);
    dict := TriggerSection(dict);
    forall n | Known(n)
      ensures n in dict
    {
      var k := Section(n);
      assert k == 0 || k == 1 || k == 2 || k == 3 || k == 4 || k == 5 || k == 6 || k == 7 || k == 8 || k == 9 || k == 10;
    }
    SoundIsWellLaid(dict);
  }

  /** What GetRegister answers for a register it does not find. */
  const ABSENT: nat := 0xDEADBEEF

  /** No two registers share an address, all lie below the answer for absent ones, and every bit range lies in
      the word. */
  ghost predicate WellLaid(dict: map<Name, Entry>) {
    && (forall a :: a in dict ==> dict[a].address < ABSENT)
    && (forall a, b :: a in dict && b in dict && dict[a].address == dict[b].address ==> a == b)
    && (forall a :: a in dict ==> FieldsFit(dict[a].fields))
  }

  lemma SoundIsWellLaid(dict: map<Name, Entry>)
    requires Sound(dict)
    ensures WellLaid(dict)
  {
    hide Known, Address, FieldsOf, FieldsFit, Extent;
    forall a, b | a in dict && b in dict && dict[a].address == dict[b].address
      ensures a == b
    {
      ExtentPositive(a);
      ExtentPositive(b);
      AddressesApart(a, b, 0, 0);
    }
    forall a | a in dict
      ensures FieldsFit(dict[a].fields) && dict[a].address < ABSENT
    {
      FieldsInWord(a);
      NotAbsent(a);
    }
  }

  lemma NotAbsent(name: Name)
    requires Known(name)
    ensures Address(name) < ABSENT
  {
  }

  lemma ExtentPositive(name: Name)
    ensures Extent(name) > 0
  {
  }
}
