/** The driver object of srcs/Dac.cpp over the shadowed DACs, and the channel loop of configureDaphne in
    srcs/DaphneSlowController.cpp. */
module DacDriver {

  import opened Dac
  import opened DacWord

  datatype Failure = RegisterUnknown | ChannelUnknown | CompanionUnknown | PositionUndefined

  datatype Outcome = Done | Failed(why: Failure)

  datatype ChannelConfig = ChannelConfig(id: nat, trim: bv32, offset: bv32)

  /** What a channel's entry asks of its DAC behind a register. */
  function Asked(register: Register, c: ChannelConfig): bv32 {
    if register.kind.Trim? then c.trim else c.offset
  }

  function RequestOf(register: Register, c: ChannelConfig): (r: Request)
    ensures r.ch < 8
  {
    Request(c.id % 8, Asked(register, c), false, false)
  }

  /** The writes a channel list makes to one register, in order. */
  function WritesTo(register: Register, configs: seq<ChannelConfig>): (reqs: seq<Request>)
    ensures Known(reqs)
  {
    if configs == [] then []
    else
      var last := configs[|configs| - 1];
      WritesTo(register, configs[..|configs| - 1])
      + if last.id / 8 == register.afe then [RequestOf(register, last)] else []
  }

  /** The channels configureDaphne gets to before it meets an AFE that does not exist. */
  function Accepted(configs: seq<ChannelConfig>): (k: nat)
    ensures k <= |configs|
    ensures forall i :: 0 <= i < k ==> configs[i].id < 40
    ensures k < |configs| ==> configs[k].id >= 40
  {
    if configs == [] || configs[0].id >= 40 then 0 else 1 + Accepted(configs[1..])
  }

  lemma AllAccepted(configs: seq<ChannelConfig>)
    requires forall i :: 0 <= i < |configs| ==> configs[i].id < 40
    ensures Accepted(configs) == |configs| && configs[..|configs|] == configs
  {
  }

  lemma RunNothing(b: Bank, register: Register)
    requires Whole(b)
    ensures Run(b, WritesTo(register, [])) == b
  {
  }

  lemma RunNext(b: Bank, register: Register, configs: seq<ChannelConfig>, i: nat)
    requires Whole(b) && i < |configs|
    ensures var before := Run(b, WritesTo(register, configs[..i]));
            Run(b, WritesTo(register, configs[..i + 1]))
            == if configs[i].id / 8 == register.afe then Update(before, RequestOf(register, configs[i])) else before
  {
    hide Update, Whole, RequestOf;
    assert configs[..i + 1][..i] == configs[..i];
    var reqs := WritesTo(register, configs[..i]);
    if configs[i].id / 8 == register.afe {
      var more := reqs + [RequestOf(register, configs[i])];
      assert more[..|more| - 1] == reqs;
      assert WritesTo(register, configs[..i + 1]) == more;
    } else {
      assert WritesTo(register, configs[..i + 1]) == reqs + [] == reqs;
    }
  }

  /** Channels 0 to 39 in ascending order. */
  predicate AllChannels(configs: seq<ChannelConfig>) { |configs| == 40 && forall i :: 0 <= i < 40 ==> configs[i].id == i }

  lemma {:induction false} WritesOfAllChannels(register: Register, configs: seq<ChannelConfig>, n: nat)
    requires AllChannels(configs) && register.afe < 5 && n <= 40
    ensures var reqs, first := WritesTo(register, configs[..n]), 8 * register.afe;
      && |reqs| == (if n <= first then 0 else if n <= first + 8 then n - first else 8)
      && forall j :: 0 <= j < |reqs| ==> reqs[j] == RequestOf(register, configs[first + j])
  {
    if n > 0 {
      WritesOfAllChannels(register, configs, n - 1);
      assert configs[..n][..n - 1] == configs[..n - 1];
      hide RequestOf;
    }
  }

  /** Configuring all channels in ascending order after power-up leaves every trim and offset DAC of every AFE at
      the level asked for it, without gain or buffer, and shadow and chips in agreement. */
  lemma ConfiguringAllChannels(register: Register, b: Bank, configs: seq<ChannelConfig>)
    requires PowerUp(b) && AllChannels(configs) && register.afe < 5
    ensures Agree(Run(b, WritesTo(register, configs)))
    ensures forall c :: 0 <= c < 8 ==>
              var asked := configs[8 * register.afe + c];
              Output(Run(b, WritesTo(register, configs)), c)
              == Level(if register.kind.Trim? then asked.trim else asked.offset, false, false)
  {
    hide WritesTo, PowerUp, Agree, Run, Output, Level;
    WritesOfAllChannels(register, configs, 40);
    assert configs[..40] == configs;
    AscendingEstablishesAgreement(b, WritesTo(register, configs));
  }

  /** configs[i] is the last entry for its channel. */
  predicate LastFor(configs: seq<ChannelConfig>, i: nat) {
    i < |configs| && forall j :: i < j < |configs| ==> configs[j].id != configs[i].id
  }

  lemma WritesNext(register: Register, configs: seq<ChannelConfig>)
    requires configs != []
    ensures var last := configs[|configs| - 1];
            var front, reqs := WritesTo(register, configs[..|configs| - 1]), WritesTo(register, configs);
            if last.id / 8 == register.afe
            then reqs == front + [Request(last.id % 8, if register.kind.Trim? then last.trim else last.offset, false, false)]
            else reqs == front
  {
  }

  /** In any list of channels, the last entry for a channel is the last write to its two DACs. */
  lemma {:induction false} LastEntryWins(register: Register, configs: seq<ChannelConfig>, i: nat)
    requires LastFor(configs, i) && configs[i].id / 8 == register.afe
    ensures var reqs, c := WritesTo(register, configs), configs[i].id % 8;
      && Written(reqs, c)
      && Latest(reqs, c) == Request(c, if register.kind.Trim? then configs[i].trim else configs[i].offset, false, false)
  {
    hide Written, WritesTo;
    var n := |configs| - 1;
    var front, reqs := WritesTo(register, configs[..n]), WritesTo(register, configs);
    WritesNext(register, configs);
    if configs[n].id / 8 == register.afe {
      assert reqs[..|reqs| - 1] == front;
      WrittenStep(reqs, configs[i].id % 8);
    }
    if i < n {
      assert configs[n].id != configs[i].id;
      LastEntryWins(register, configs[..n], i);
    }
  }

  /** A channel of the register that no entry names is not written. */
  lemma {:induction false} UnlistedNotWritten(register: Register, configs: seq<ChannelConfig>, c: nat)
    requires c < 8 && forall i :: 0 <= i < |configs| ==> configs[i].id != 8 * register.afe + c
    ensures !Written(WritesTo(register, configs), c)
  {
    if configs == [] {
      NothingWritten(c);
    } else {
      hide Written, WritesTo;
      var n := |configs| - 1;
      var reqs := WritesTo(register, configs);
      UnlistedNotWritten(register, configs[..n], c);
      WritesNext(register, configs);
      if configs[n].id / 8 == register.afe {
        assert reqs[..|reqs| - 1] == WritesTo(register, configs[..n]);
        WrittenStep(reqs, c);
      }
    }
  }

  /** Any list, in any order and with repetitions, once shadow and chips agree: every DAC holds the last level asked
      for it, and one that was not named holds what it held. */
  lemma ConfiguringAgreedChannels(register: Register, b: Bank, configs: seq<ChannelConfig>)
    requires Whole(b) && Agree(b)
    ensures var after := Run(b, WritesTo(register, configs));
      && Agree(after)
      && (forall i :: 0 <= i < |configs| && LastFor(configs, i) && configs[i].id / 8 == register.afe ==>
            Output(after, configs[i].id % 8)
            == Level(if register.kind.Trim? then configs[i].trim else configs[i].offset, false, false))
      && (forall c :: 0 <= c < 8 && (forall i :: 0 <= i < |configs| ==> configs[i].id != 8 * register.afe + c) ==>
            Output(after, c) == Output(b, c))
  {
    hide WritesTo, Agree, Run, Output, Level, Written, Latest, LastFor, Whole;
    AgreementForever(b, WritesTo(register, configs));
    forall i | 0 <= i < |configs| && LastFor(configs, i) && configs[i].id / 8 == register.afe
      ensures Output(Run(b, WritesTo(register, configs)), configs[i].id % 8)
           == Level(if register.kind.Trim? then configs[i].trim else configs[i].offset, false, false)
    {
      LastEntryWins(register, configs, i);
    }
    forall c | 0 <= c < 8 && (forall i :: 0 <= i < |configs| ==> configs[i].id != 8 * register.afe + c)
      ensures Output(Run(b, WritesTo(register, configs)), c) == Output(b, c)
    {
      UnlistedNotWritten(register, configs, c);
    }
  }

  const ZERO_SHADOW: map<nat, Half> := map[0 := 0, 1 := 0, 2 := 0, 3 := 0, 4 := 0, 5 := 0, 6 := 0, 7 := 0]

  function ZeroShadows(): map<Register, map<nat, Half>> {
    map[
      Register(Trim, 0) := ZERO_SHADOW, Register(Trim, 1) := ZERO_SHADOW, Register(Trim, 2) := ZERO_SHADOW,
      Register(Trim, 3) := ZERO_SHADOW, Register(Trim, 4) := ZERO_SHADOW,
      Register(Offset, 0) := ZERO_SHADOW, Register(Offset, 1) := ZERO_SHADOW, Register(Offset, 2) := ZERO_SHADOW,
      Register(Offset, 3) := ZERO_SHADOW, Register(Offset, 4) := ZERO_SHADOW]
  }

  lemma ZeroShadowsRow(r: Register)
    ensures r in ZeroShadows() <==> r.afe < 5
    ensures r.afe < 5 ==> ZeroShadows()[r] == ZERO_SHADOW
  {
    hide ZERO_SHADOW;
    assert r.afe < 5 ==> r.afe == 0 || r.afe == 1 || r.afe == 2 || r.afe == 3 || r.afe == 4;
    match r.kind {
      case Trim =>
        assert r == Register(Trim, r.afe);
      case Offset =>
        assert r == Register(Offset, r.afe);
    }
  }

  lemma ZeroShadowWhole()
    ensures forall c: nat :: c in ZERO_SHADOW <==> c < 8
    ensures forall c: nat :: c < 8 ==> ZERO_SHADOW[c] == 0
  {
  }

  /** CHANNEL_MAPPING as declared. */
  function Rows(): (m: map<nat, Wiring>)
    ensures forall c: nat :: c in m <==> c < 8
    ensures forall c: nat :: c < 8 ==> m[c] == Home(c)
  {
    map[
      0 := Wiring(L, 0), 1 := Wiring(L, 1), 2 := Wiring(L, 2), 3 := Wiring(L, 3),
      4 := Wiring(H, 0), 5 := Wiring(H, 1), 6 := Wiring(H, 2), 7 := Wiring(H, 3)]
  }

  lemma RowOf(b: Bank, ch: nat)
    requires Whole(b)
    ensures ch in b.shadow <==> ch < 8
    ensures |b.chips.low| == |b.chips.high| == 4
    ensures ch < 8 ==> Companion(ch) < 8 && Home(ch).chipChannel == ch % 4
    ensures ch < 8 ==> Home(Companion(ch)).position == if ch < 4 then H else L
  {
  }

  lemma UpdateParts(b: Bank, r: Request)
    requires Whole(b) && r.ch < 8
    ensures |b.chips.low| == |b.chips.high| == 4
    ensures Update(b, r) == Bank(Stored(b.shadow, r.ch, Encoded(r)), Settle(b.chips, WordOf(b, r)))
  {
    hide Encoded, Settle, WordOf;
  }

  class Driver {
    var channelValues: map<Register, map<nat, Half>>
    var mapping: map<nat, Wiring>
    /** The chips behind each register. */
    var chips: map<Register, Chips>
    /** The last word each register was sent. */
    var words: map<Register, bv32>

    ghost predicate Valid()
      reads this
    {
      && (forall r: Register :: r in channelValues <==> r.afe < 5)
      && (forall r: Register :: r in chips <==> r.afe < 5)
      && (forall r: Register :: r.afe < 5 ==> Whole(View(r)))
      && (forall c: nat :: c < 8 ==> c in mapping && mapping[c] == Home(c))
      && (forall c: nat :: c >= 8 && c in mapping ==> mapping[c] == NO_WIRING)
    }

    ghost function View(r: Register): Bank
      requires r in channelValues && r in chips
      reads this
    {
      Bank(channelValues[r], chips[r])
    }

    /** Dac::Dac: zero shadows; the chips hold whatever they held. */
    constructor (chips: map<Register, Chips>)
      requires forall r: Register :: r in chips <==> r.afe < 5
      requires forall r: Register :: r in chips ==> |chips[r].low| == |chips[r].high| == 4
      ensures Valid() && this.chips == chips
      ensures forall r: Register :: r.afe < 5 ==> PowerUp(View(r))
    {
      channelValues := ZeroShadows();
      mapping := Rows();
      this.chips := chips;
      words := map[];
      new;
      hide ZeroShadows, ZERO_SHADOW, Rows;
      ZeroShadowWhole();
      forall r: Register
        ensures r in channelValues <==> r.afe < 5
        ensures r.afe < 5 ==> channelValues[r] == ZERO_SHADOW
      {
        ZeroShadowsRow(r);
      }
    }

    /** Reading a missing row of CHANNEL_MAPPING creates it. */
    method WiringOf(ch: nat) returns (wiring: Wiring)
      requires Valid()
      modifies this`mapping
      ensures Valid()
      ensures wiring == if ch < 8 then Home(ch) else NO_WIRING
    {
      if ch !in mapping {
        mapping := mapping[ch := NO_WIRING];
      }
      wiring := mapping[ch];
    }

    /** findCompanionChannelValue: rows in ascending order, the last one if none fits. Rows left by
        unknown channels never change the answer for a known one. */
    method FindCompanionChannelValue(ch: nat) returns (companion: nat)
      requires Valid()
      modifies this`mapping
      ensures Valid()
      ensures companion == if ch < 8 then Companion(ch) else 0
      ensures companion == if ch < 4 then ch + 4 else if ch < 8 then ch - 4 else 0
    {
      var home := WiringOf(ch);
      companion := 0;
      for row := 0 to 0x1_0000_0000
        invariant ch >= 8 ==> row == 0
        invariant ch < 8 ==> row <= Companion(ch)
      {
        if row in mapping {
          companion := row;
          if mapping[row].position != home.position && mapping[row].chipChannel == home.chipChannel {
            break;
          }
        }
      }
    }

    method StoreShadow(register: Register, ch: nat, data: Half)
      requires Valid() && register.afe < 5 && ch < 8
      modifies this`channelValues
      ensures Valid()
      ensures channelValues == old(channelValues)[register := Stored(old(channelValues)[register], ch, data)]
    {
      channelValues := channelValues[register := Stored(channelValues[register], ch, data)];
    }

    /** The SPI write: the word reaches both chips of the register. */
    method SetData(register: Register, word: bv32)
      requires Valid() && register.afe < 5
      modifies this`chips, this`words
      ensures Valid()
      ensures chips == old(chips)[register := Settle(old(chips)[register], word)]
      ensures words == old(words)[register := word]
    {
      hide Settle;
      chips := chips[register := Settle(chips[register], word)];
      words := words[register := word];
    }

    lemma Has(register: Register)
      requires Valid() && register.afe < 5
      ensures register in channelValues && register in chips && Whole(View(register))
    {
    }

    /** The half-word for the channel and the word that also carries its companion's. */
    method Compose(register: Register, ch: nat, companion: nat, value: bv32, gain: bool, buffer: bool)
      returns (o: Outcome, data: Half, dataToWrite: bv32)
      requires Valid() && register.afe < 5 && ch < 8 && companion == Companion(ch)
      modifies this`mapping
      ensures Valid() && o == Done
      ensures data == Encoded(Request(ch, value, gain, buffer))
      ensures dataToWrite == WordOf(View(register), Request(ch, value, gain, buffer))
    {
      hide Pack, Encode, Whole, Home, Companion;
      RowOf(View(register), ch);
      RowOf(View(register), companion);
      var other := WiringOf(companion);
      var own := WiringOf(ch);
      data := Encode(own.chipChannel, value, gain, buffer);
      var otherData := channelValues[register][companion];
      o, dataToWrite := Done, 0;
      if other.position == L {
        dataToWrite := Pack(data, otherData);
      } else if other.position == H {
        dataToWrite := Pack(otherData, data);
      } else {
        o := Failed(PositionUndefined);
      }
    }

    /** The rest of updateCurrentRegister once register, channel and companion are found. */
    method WriteBoth(register: Register, ch: nat, companion: nat, value: bv32, gain: bool, buffer: bool) returns (o: Outcome)
      requires Valid() && register.afe < 5 && ch < 8 && companion == Companion(ch)
      modifies this
      ensures Valid() && o == Done
      ensures words == old(words)[register := WordOf(old(View(register)), Request(ch, value, gain, buffer))]
      ensures var after := Update(old(View(register)), Request(ch, value, gain, buffer));
        && channelValues == old(channelValues)[register := after.shadow]
        && chips == old(chips)[register := after.chips]
    {
      hide Encoded, Settle, Update, Stored, Whole, Home, Companion, WordOf, Valid;
      Has(register);
      UpdateParts(View(register), Request(ch, value, gain, buffer));
      var data, dataToWrite;
      o, data, dataToWrite := Compose(register, ch, companion, value, gain, buffer);
      if o.Done? {
        StoreShadow(register, ch, data);
        SetData(register, dataToWrite);
      }
    }

    method UpdateCurrentRegister(register: Register, ch: nat, value: bv32, gain: bool, buffer: bool) returns (o: Outcome)
      requires Valid()
      modifies this
      ensures Valid()
      ensures o == if register.afe >= 5 then Failed(RegisterUnknown) else if ch >= 8 then Failed(ChannelUnknown) else Done
      ensures o.Failed? ==> channelValues == old(channelValues) && chips == old(chips) && words == old(words)
      ensures o.Done? ==>
                && words.Keys == old(words).Keys + {register}
                && (forall r :: r in old(words) && r != register ==> words[r] == old(words)[r])
                && WordFor(words[register], ch, Encode(ch % 4, value, gain, buffer),
                           old(channelValues)[register][if ch < 4 then ch + 4 else ch - 4])
      ensures o.Done? ==>
                var after := Update(old(View(register)), Request(ch, value, gain, buffer));
                && channelValues == old(channelValues)[register := after.shadow]
                && chips == old(chips)[register := after.chips]
    {
      hide Update, Whole, Home, WordFor, WordOf, Encode;
      if register !in channelValues {
        return Failed(RegisterUnknown);
      }
      assert register.afe < 5;
      RowOf(View(register), ch);
      var companion := FindCompanionChannelValue(ch);
      if ch !in channelValues[register] {
        return Failed(ChannelUnknown);
      }
      RowOf(View(register), companion);
      if companion !in channelValues[register] {
        return Failed(CompanionUnknown);
      }
      WordOfIs(View(register), Request(ch, value, gain, buffer));
      o := WriteBoth(register, ch, companion, value, gain, buffer);
    }

    method SetDacTrim(afe: nat, ch: nat, value: bv32, gain: bool, buffer: bool) returns (o: Outcome)
      requires Valid()
      modifies this
      ensures Valid()
      ensures o == if afe >= 5 then Failed(RegisterUnknown) else if ch >= 8 then Failed(ChannelUnknown) else Done
      ensures o.Failed? ==> channelValues == old(channelValues) && chips == old(chips)
      ensures o.Done? ==> View(Register(Trim, afe)) == Update(old(View(Register(Trim, afe))), Request(ch, value, gain, buffer))
      ensures forall r: Register :: r.afe < 5 && r != Register(Trim, afe) ==> View(r) == old(View(r))
    {
      hide Update, Whole;
      o := UpdateCurrentRegister(Register(Trim, afe), ch, value, gain, buffer);
    }

    method SetDacOffset(afe: nat, ch: nat, value: bv32, gain: bool, buffer: bool) returns (o: Outcome)
      requires Valid()
      modifies this
      ensures Valid()
      ensures o == if afe >= 5 then Failed(RegisterUnknown) else if ch >= 8 then Failed(ChannelUnknown) else Done
      ensures o.Failed? ==> channelValues == old(channelValues) && chips == old(chips)
      ensures o.Done? ==> View(Register(Offset, afe)) == Update(old(View(Register(Offset, afe))), Request(ch, value, gain, buffer))
      ensures forall r: Register :: r.afe < 5 && r != Register(Offset, afe) ==> View(r) == old(View(r))
    {
      hide Update, Whole;
      o := UpdateCurrentRegister(Register(Offset, afe), ch, value, gain, buffer);
    }

    method ConfigureChannel(c: ChannelConfig) returns (o: Outcome)
      requires Valid()
      modifies this
      ensures Valid()
      ensures o == if c.id < 40 then Done else Failed(RegisterUnknown)
      ensures forall r: Register :: r.afe < 5 ==>
                View(r) == if r.afe == c.id / 8 then Update(old(View(r)), RequestOf(r, c)) else old(View(r))
    {
      hide Update, Whole;
      o := SetDacTrim(c.id / 8, c.id % 8, c.trim, false, false);
      if o.Done? {
        o := SetDacOffset(c.id / 8, c.id % 8, c.offset, false, false);
      }
    }

    /** The channel loop of configureDaphne; the first unknown AFE ends it. */
    method ConfigureChannels(configs: seq<ChannelConfig>) returns (o: Outcome)
      requires Valid()
      modifies this
      ensures Valid()
      ensures o == if Accepted(configs) == |configs| then Done else Failed(RegisterUnknown)
      ensures forall r: Register :: r.afe < 5 ==>
                View(r) == Run(old(View(r)), WritesTo(r, configs[..Accepted(configs)]))
    {
      hide Update, Whole, Run, WritesTo, RequestOf, Accepted, View;
      var i := 0;
      assert configs[..0] == [];
      forall r: Register | r.afe < 5
        ensures View(r) == Run(old(View(r)), WritesTo(r, configs[..0]))
      {
        RunNothing(old(View(r)), r);
      }
      while i < |configs|
        invariant 0 <= i <= Accepted(configs)
        invariant Valid()
        invariant forall r: Register :: r.afe < 5 ==> View(r) == Run(old(View(r)), WritesTo(r, configs[..i]))
      {
        o := ConfigureChannel(configs[i]);
        if o.Failed? {
          return;
        }
        forall r: Register | r.afe < 5
          ensures View(r) == Run(old(View(r)), WritesTo(r, configs[..i + 1]))
        {
          RunNext(old(View(r)), r, configs, i);
        }
        i := i + 1;
      }
      o := Done;
    }

    /** Nothing has been written since power-up. */
    ghost predicate Fresh()
      requires Valid()
      reads this
    {
      forall r: Register :: r.afe < 5 ==> PowerUp(View(r))
    }

    /** Every shadow is what its DAC holds. */
    ghost predicate Agreed()
      requires Valid()
      reads this
    {
      forall r: Register :: r.afe < 5 ==> Agree(View(r))
    }

    /** The channel's two DACs are at the levels its entry asks for. */
    ghost predicate Set(c: ChannelConfig)
      requires Valid() && c.id < 40
      reads this
    {
      && Output(View(Register(Trim, c.id / 8)), c.id % 8) == Level(c.trim, false, false)
      && Output(View(Register(Offset, c.id / 8)), c.id % 8) == Level(c.offset, false, false)
    }

    /** All channels in order after power-up: all trims and offsets are set, and agreement is reached. */
    method ConfigureAllChannels(configs: seq<ChannelConfig>) returns (o: Outcome)
      requires Valid() && Fresh()
      requires |configs| == 40 && forall i :: 0 <= i < 40 ==> configs[i].id == i
      modifies this
      ensures Valid() && o.Done? && Agreed()
      ensures forall i :: 0 <= i < 40 ==> Set(configs[i])
    {
      hide Update, Run, WritesTo, PowerUp, Agree, Output, Level, Accepted, Whole;
      label before:
      AllAccepted(configs);
      o := ConfigureChannels(configs);
      forall r: Register | r.afe < 5
        ensures Agree(View(r))
        ensures forall c :: 0 <= c < 8 ==> Output(View(r), c) == Level(Asked(r, configs[8 * r.afe + c]), false, false)
      {
        ConfiguringAllChannels(r, old@before(View(r)), configs);
      }
    }

    /** From then on any list of channels may follow: it sets what it names, the last entry counting. */
    method ReconfigureChannels(configs: seq<ChannelConfig>) returns (o: Outcome)
      requires Valid() && Agreed()
      requires forall i :: 0 <= i < |configs| ==> configs[i].id < 40
      modifies this
      ensures Valid() && o.Done? && Agreed()
      ensures forall i: nat :: LastFor(configs, i) ==> Set(configs[i])
      ensures forall c: ChannelConfig :: c.id < 40 && old(Set(c)) && (forall i :: 0 <= i < |configs| ==> configs[i].id != c.id) ==> Set(c)
    {
      hide Update, Run, WritesTo, Agree, Output, Level, Accepted, Whole;
      label before:
      AllAccepted(configs);
      o := ConfigureChannels(configs);
      forall r: Register | r.afe < 5
        ensures Agree(View(r))
      {
        ConfiguringAgreedChannels(r, old@before(View(r)), configs);
      }
      forall i: nat | LastFor(configs, i)
        ensures Set(configs[i])
      {
        var afe := configs[i].id / 8;
        ConfiguringAgreedChannels(Register(Trim, afe), old@before(View(Register(Trim, afe))), configs);
        ConfiguringAgreedChannels(Register(Offset, afe), old@before(View(Register(Offset, afe))), configs);
      }
      forall c: ChannelConfig | c.id < 40 && old(Set(c)) && (forall i :: 0 <= i < |configs| ==> configs[i].id != c.id)
        ensures Set(c)
      {
        var afe := c.id / 8;
        ConfiguringAgreedChannels(Register(Trim, afe), old@before(View(Register(Trim, afe))), configs);
        ConfiguringAgreedChannels(Register(Offset, afe), old@before(View(Register(Offset, afe))), configs);
      }
    }
  }
}
