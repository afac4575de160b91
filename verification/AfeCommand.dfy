/** The command that sets an AFE function, from the two clients' own checks to the driver: writeAFEFunction of
    srcs/DaphneSlowController.cpp, client/afe_function_v2.py and client/protobuf_configure_afeFunction.py. */
module AfeCommand {

  import opened Afe
  import opened AfeOffers
  import opened AfeTable
  import opened BitField
  import opened SpyDump

  // ---- The two clients' checks ----

  /** validate_value of client/afe_function_v2.py. */
  predicate Passes(options: seq<int>, value: int) {
    if |options| == 2 then
      if options[0] == 0 && options[1] == 1 then value == 0 || value == 1
      else !(value < options[0] || value > options[1])
    else value in options
  }

  /** The check of client/protobuf_configure_afeFunction.py. */
  predicate PassesLegacy(options: seq<int>, value: int) {
    if |options| == 2 then
      if options[0] == 0 && options[1] == 1 then value == 0 || value == 1
      else !(value <= options[0] && value >= options[1])
    else value in options
  }

  /** The older check lets every number through for every function with a range, and is right for the others. */
  lemma LegacyPassesIff(t: Table, c: Offers, name: string, value: int)
    requires Compatible(t, c) && Look(c, name).Offer? && name != CLIENT_SPELLING
    ensures var options := Look(c, name).options;
            PassesLegacy(options, value) <==> Passes(options, value) || (|options| == 2 && options != [0, 1])
  {
    hide Agrees, DRIVER_SPELLING, CLIENT_SPELLING;
    OfferedIsKnown(t, c, name);
  }

  lemma OfferedIsKnown(t: Table, c: Offers, name: string)
    requires Compatible(t, c) && Look(c, name).Offer? && name != CLIENT_SPELLING
    ensures Find(t, name).Row? && SameOptions(Find(t, name).options, Look(c, name).options)
  {
    hide Agrees, SameOptions, DRIVER_SPELLING, CLIENT_SPELLING;
    LookAgrees(t, c, name);
  }

  // ---- The value on its way ----

  /** What becomes of the uint32 of the request in the driver's uint16_t. */
  function Narrowed(value: Word): bv16 { (value & 0xFFFF) as bv16 }

  lemma SmallKept(value: Word)
    requires value & 0xFFFF_0000 == 0
    ensures Narrowed(value) as int == value as int
  {
    LowHalfKept(value);
  }

  lemma LowHalfKept(value: Word)
    requires value & 0xFFFF_0000 == 0
    ensures ((value & 0xFFFF) as bv16) as int == value as int
  {
  }

  lemma LargeLost(value: Word)
    requires value & 0xFFFF_0000 != 0
    ensures value as int >= 0x1_0000
  {
  }

  lemma SameNumber(a: bv16, b: bv16)
    ensures a == b <==> a as int == b as int
  {
    AtMostIs(a, b);
    AtMostIs(b, a);
    Antisymmetric(a, b);
    hide AtMost;
  }

  lemma Antisymmetric(a: bv16, b: bv16)
    ensures AtMost(a, b) && AtMost(b, a) ==> a == b
  {
    hide AtMost, HighByte, LowByte, Below8;
    AtMostByBytes(a, b);
    AtMostByBytes(b, a);
    ByteTrichotomy(HighByte(a), HighByte(b));
    ByteTrichotomy(LowByte(a), LowByte(b));
    SameBytes(a, b);
  }

  lemma ByteTrichotomy(a: bv8, b: bv8)
    ensures a == b || Below8(a, b) || Below8(b, a)
    ensures !(Below8(a, b) && Below8(b, a)) && (a == b ==> !Below8(a, b))
  {
  }

  lemma SameBytes(a: bv16, b: bv16)
    ensures HighByte(a) == HighByte(b) && LowByte(a) == LowByte(b) ==> a == b
  {
  }

  /** Where the driver has the options a client offers, it takes the values the newer check passes. */
  lemma TakenIff(options: seq<bv16>, offered: seq<int>, value: bv16)
    requires SameOptions(options, offered)
    ensures Passes(offered, value as int) <==> Accepts(options, value)
  {
    AcceptsExactly(options, value);
    hide Accepts;
    if |options| != 2 {
      if Passes(offered, value as int) {
        var i :| 0 <= i < |offered| && offered[i] == value as int;
        SameNumber(options[i], value);
      }
      if Accepts(options, value) {
        var i :| 0 <= i < |options| && options[i] == value;
        assert offered[i] == value as int;
      }
    }
  }

  lemma BeyondAnyOption(options: seq<bv16>, offered: seq<int>, value: int)
    requires SameOptions(options, offered) && value >= 0x1_0000
    ensures !Passes(offered, value)
  {
    forall i | 0 <= i < |offered|
      ensures offered[i] < 0x1_0000
    {
      assert offered[i] == options[i] as int;
    }
  }

  /** The newer client sends exactly what the driver takes as it stands: for every function both know and every
      number a request can carry, its check passes if and only if the driver accepts the value and narrowing does
      not change it. */
  lemma CheckedIffAccepted(t: Table, c: Offers, name: string, value: Word)
    requires Compatible(t, c) && Look(c, name).Offer? && name != CLIENT_SPELLING
    ensures Find(t, name).Row?
    ensures Passes(Look(c, name).options, value as int)
       <==> Accepts(Find(t, name).options, Narrowed(value)) && Narrowed(value) as int == value as int
  {
    hide Compatible, Find, Look, SameOptions, Passes, Accepts, Narrowed, CLIENT_SPELLING;
    OfferedIsKnown(t, c, name);
    var options, offered := Find(t, name).options, Look(c, name).options;
    TakenIff(options, offered, Narrowed(value));
    if value & 0xFFFF_0000 == 0 {
      SmallKept(value);
    } else {
      LargeLost(value);
      BeyondAnyOption(options, offered, value as int);
    }
  }

  lemma PassedIsSmall(t: Table, c: Offers, name: string, value: Word)
    requires Compatible(t, c) && Look(c, name).Offer? && name != CLIENT_SPELLING
    requires Passes(Look(c, name).options, value as int)
    ensures Find(t, name).Row? && Accepts(Find(t, name).options, Narrowed(value))
    ensures value & 0xFFFF_0000 == 0
  {
    hide Compatible, Find, Look, SameOptions, Passes, Accepts, Narrowed, CLIENT_SPELLING;
    CheckedIffAccepted(t, c, name, value);
    if value & 0xFFFF_0000 != 0 {
      LargeLost(value);
    }
  }

  lemma SmallWide(value: Word)
    requires value & 0xFFFF_0000 == 0
    ensures Wide(Narrowed(value)) == value
  {
  }

  lemma NextLap(option: bv16)
    ensures Narrowed(0x1_0000 | Wide(option)) == option && (0x1_0000 | Wide(option)) & 0xFFFF_0000 != 0
  {
  }

  /** So for every function with a range the older client lets a number through that is not in it, and that the driver
      takes for one that is. */
  lemma AnotherNumberTaken(t: Table, c: Offers, name: string) returns (value: Word)
    requires Compatible(t, c) && Look(c, name).Offer? && name != CLIENT_SPELLING
    requires |Look(c, name).options| == 2 && Look(c, name).options != [0, 1]
    ensures PassesLegacy(Look(c, name).options, value as int) && !Passes(Look(c, name).options, value as int)
    ensures Find(t, name).Row? && Accepts(Find(t, name).options, Narrowed(value))
  {
    hide Compatible, Find, Look, Passes, PassesLegacy, Accepts, Narrowed, Wide, CLIENT_SPELLING;
    OfferedIsKnown(t, c, name);
    var options := Find(t, name).options;
    value := 0x1_0000 | Wide(options[0]);
    NextLap(options[0]);
    AcceptsExactly(options, options[0]);
    LargeLost(value);
    BeyondAnyOption(options, Look(c, name).options, value as int);
    LegacyPassesIff(t, c, name, value as int);
  }

  // ---- The command on the server ----

  datatype Answer = Success(value: Word) | Failure

  /** writeAFEFunction: AFEs are numbered as on the board, and every exception becomes a failure. */
  method WriteFunction(driver: Driver, afeBlock: nat, name: string, configValue: Word) returns (r: Answer)
    requires driver.Valid() && Defined(driver.functions, SetFunction(name, Narrowed(configValue)))
    modifies driver`chips
    ensures driver.Valid()
    ensures r.Success? <==>
            && afeBlock < 5 && Find(driver.functions, name).Row?
            && Accepts(Find(driver.functions, name).options, Narrowed(configValue))
    ensures r.Failure? ==> driver.chips == old(driver.chips)
    ensures afeBlock < 5 ==>
              forall i :: 0 <= i < 5 && i != BoardToPL(afeBlock) ==> driver.chips[i] == old(driver.chips)[i]
    ensures r.Success? && Find(driver.functions, name).register != 0 ==>
              var row, chip := Find(driver.functions, name), BoardToPL(afeBlock);
              && r.value == Wide(Narrowed(configValue))
              && Rewritten(old(driver.chips)[chip], driver.chips[chip], row.register, row.lsb, row.msb, r.value)
  {
    hide Shipped, Find, Accepts, Do, Whole, Narrowed, Wide, Rewritten;
    if afeBlock >= 5 {
      return Failure;
    }
    var o := driver.SetAFEFunction(BoardToPL(afeBlock), name, Narrowed(configValue));
    match o
    case Value(v) => r := Success(v);
    case Failed(_) => r := Failure;
  }

  /** The newer client from end to end; its argument parser admits only board AFEs and names of the dictionary. What
      passes its check is set as asked, except under the one name the driver does not know; what does not pass is not
      sent. */
  method SetChecked(driver: Driver, offers: Offers, afeNumber: nat, name: string, value: Word)
    returns (sent: bool, r: Answer)
    requires driver.Valid() && Compatible(driver.functions, offers)
    requires afeNumber < 5 && Look(offers, name).Offer? && name != BACKWARDS
    modifies driver`chips
    ensures driver.Valid()
    ensures sent <==> Passes(Look(offers, name).options, value as int)
    ensures r.Success? <==> sent && name != CLIENT_SPELLING
    ensures name != CLIENT_SPELLING ==> Find(driver.functions, name).Row?
    ensures r.Failure? ==> driver.chips == old(driver.chips)
    ensures r.Success? && Find(driver.functions, name).register != 0 ==>
              var row, chip := Find(driver.functions, name), BoardToPL(afeNumber);
              && r.value == value
              && Rewritten(old(driver.chips)[chip], driver.chips[chip], row.register, row.lsb, row.msb, value)
  {
    hide Shipped, Agrees, Find, Look, Accepts, Do, Whole, Narrowed, Wide, Rewritten, Passes, CLIENT_SPELLING, BACKWARDS;
    DefinedIff(driver.functions, SetFunction(name, Narrowed(value)));
    if name != CLIENT_SPELLING {
      OfferedIsKnown(driver.functions, offers, name);
    }
    r := Failure;
    sent := Passes(Look(offers, name).options, value as int);
    if sent {
      if name != CLIENT_SPELLING {
        PassedIsSmall(driver.functions, offers, name, value);
        SmallWide(value);
      }
      r := WriteFunction(driver, afeNumber, name, value);
    }
  }
}
