/** Register and bit-field access to the AFE chips, srcs/Afe.cpp, over a chip that cannot be read without
    switching it to readout mode first. */
module Afe {

  import opened BitField
  import opened AfeTable

  // ---- The chip ----

  datatype Address = Reg(n: bv8)

  const MODE := Reg(0)

  /** A chip's 16-bit registers by address, and the word its last readout left in the FPGA. */
  datatype Chip = Chip(regs: map<Address, Word>, out: Word)

  /** All addresses exist and hold 16 bits. */
  ghost predicate Whole(c: Chip) {
    forall a: bv8 :: Reg(a) in c.regs && Narrow(c.regs[Reg(a)])
  }

  function Sent(address: bv8, data: Word): Word { ((address as Word) << 16) | (data & 0xFFFF) }

  /** A word on the wire: the register in bits 16 to 23, 16 bits of data below, nothing above. */
  lemma SentLayout(address: bv8, data: Word)
    ensures Sent(address, data) & 0xFFFF == data & 0xFFFF
    ensures Sent(address, data) >> 16 == address as Word
  {
  }

  function AddressIn(word: Word): bv8 { ((word >> 16) & 0xFF) as bv8 }

  function Low16(word: Word): Word { And(word, LOW16) }

  /** Bit 1 of register 0 selects readout mode. */
  predicate Readout(c: Chip)
    requires MODE in c.regs
  {
    Bit(c.regs[MODE], 1)
  }

  /** One SPI transfer: address in bits 16 to 23, data below. Register 0 can always be written; in
      readout mode any other address is read instead of written. */
  function Transfer(c: Chip, word: Word): (r: Chip)
    requires Whole(c)
    ensures Whole(r)
  {
    var a := AddressIn(word);
    if a == 0 then c.(regs := c.regs[MODE := Low16(word)])
    else if Readout(c) then c.(out := c.regs[Reg(a)])
    else c.(regs := c.regs[Reg(a) := Low16(word)])
  }

  // ---- The four-transfer sequences ----

  const READOUT_ON: Word := 0x000002
  const READOUT_OFF: Word := 0x000000

  /** The transfers of setRegister; what it returns is left in out. */
  function Write(c: Chip, register: bv8, value: Word): (r: Chip)
    requires Whole(c)
    ensures Whole(r)
  {
    var word := Sent(register, value);
    Transfer(Transfer(Transfer(Transfer(c, word), READOUT_ON), word & 0xFF0000), READOUT_OFF)
  }

  /** The transfers of getRegister. */
  function Read(c: Chip, register: bv8): (r: Chip)
    requires Whole(c)
    ensures Whole(r)
  {
    Transfer(Transfer(Transfer(c, READOUT_ON), (register as Word) << 16), READOUT_OFF)
  }

  lemma Words(register: bv8, value: Word)
    ensures AddressIn(Sent(register, value)) == register && Low16(Sent(register, value)) == Low16(value)
    ensures AddressIn(Sent(register, value) & 0xFF0000) == register && Low16(Sent(register, value) & 0xFF0000) == 0
    ensures AddressIn((register as Word) << 16) == register && Low16((register as Word) << 16) == 0
  {
  }

  lemma Modes()
    ensures AddressIn(READOUT_ON) == 0 && Low16(READOUT_ON) == 2 && Bit(2, 1)
    ensures AddressIn(READOUT_OFF) == 0 && Low16(READOUT_OFF) == 0 && !Bit(0, 1)
  {
  }

  lemma TransferParts(c: Chip, word: Word, a: bv8, data: Word)
    requires Whole(c) && AddressIn(word) == a && Low16(word) == data
    ensures Whole(Transfer(c, word))
    ensures Transfer(c, word)
         == if a == 0 then Chip(c.regs[MODE := data], c.out)
            else if Readout(c) then Chip(c.regs, c.regs[Reg(a)])
            else Chip(c.regs[Reg(a) := data], c.out)
  {
    hide Bit, AddressIn, Low16;
  }

  /** getRegister works from either mode, returns the register, and changes register 0 only. */
  lemma ReadMeaning(c: Chip, register: bv8)
    requires Whole(c)
    ensures !Readout(Read(c, register))
    ensures Read(c, register) == Chip(c.regs[MODE := 0], if register == 0 then c.out else c.regs[Reg(register)])
  {
    hide Bit, AddressIn, Low16, Sent, READOUT_ON, READOUT_OFF, Transfer;
    Words(register, 0);
    Modes();
    TransferParts(c, READOUT_ON, 0, 2);
    var c1 := Transfer(c, READOUT_ON);
    TransferParts(c1, (register as Word) << 16, register, 0);
    var c2 := Transfer(c1, (register as Word) << 16);
    TransferParts(c2, READOUT_OFF, 0, 0);
    assert Transfer(c2, READOUT_OFF).regs == c.regs[MODE := 0];
  }

  /** After its first transfer setRegister does what getRegister does. */
  lemma WriteThenRead(c: Chip, register: bv8, value: Word)
    requires Whole(c)
    ensures Write(c, register, value) == Read(Transfer(c, Sent(register, value)), register)
  {
    HighPart(register, value);
    hide Transfer, Sent, READOUT_ON, READOUT_OFF;
  }

  lemma HighPart(register: bv8, value: Word)
    ensures Sent(register, value) & 0xFF0000 == (register as Word) << 16
  {
  }

  /** Whatever mode it found, setRegister leaves write mode. In write mode it stores the value and reads
      it back; it can neither keep a value in register 0 nor store anything if it started in readout mode. */
  lemma WriteMeaning(c: Chip, register: bv8, value: Word)
    requires Whole(c)
    ensures !Readout(Write(c, register, value))
    ensures register != 0 && !Readout(c) ==>
              Write(c, register, value) == Chip(c.regs[Reg(register) := Low16(value)][MODE := 0], Low16(value))
    ensures register != 0 && Readout(c) ==> Write(c, register, value) == Chip(c.regs[MODE := 0], c.regs[Reg(register)])
    ensures register == 0 ==> Write(c, register, value) == Chip(c.regs[MODE := 0], c.out)
  {
    hide Bit, AddressIn, Low16, Sent, READOUT_ON, READOUT_OFF, Transfer, Read;
    Words(register, value);
    var word := Sent(register, value);
    TransferParts(c, word, register, Low16(value));
    WriteThenRead(c, register, value);
    ReadMeaning(Transfer(c, word), register);
    if register != 0 && !Readout(c) {
      assert c.regs[Reg(register) := Low16(value)][MODE := 0][Reg(register)] == Low16(value);
    } else if register == 0 {
      assert c.regs[MODE := Low16(value)][MODE := 0] == c.regs[MODE := 0];
    }
  }

  // ---- Functions: bit fields of a register ----

  /** The register accesses of setAFEFunction; what it reads back at the end is left in out. */
  function SetField(c: Chip, register: bv8, low: Place, high: Place, value: Word): (r: Chip)
    requires Whole(c) && low <= high <= 15
    ensures Whole(r)
  {
    var mask := Left(Mask(low, high), low);
    var before := Read(c, register);
    var cleared := And(Low16(before.out), Not(mask));
    Read(Write(before, register, Or(cleared, And(Left(value, low), mask))), register)
  }

  /** The field as setAFEFunction and getAFEFunction cut it out of the word read. */
  function Cut(word: Word, low: Place, high: Place): Word
    requires low <= high <= 15
  {
    Right(And(Low16(word), Left(Mask(low, high), low)), low)
  }

  lemma CutIsGet(word: Word, low: Place, high: Place)
    requires low <= high <= 15 && Narrow(word)
    ensures Cut(word, low, high) == Get(word, low, high)
  {
    hide And, Left, Mask, Right, Get, LOW16;
    GetShifted(word, low, high);
  }

  /** setAFEFunction, from either mode, rewrites the field in its register and register 0, touches no other
      register, and reads back the value cut to the field's width. */
  lemma SetFieldMeaning(c: Chip, register: bv8, low: Place, high: Place, value: Word)
    requires Whole(c) && low <= high <= 15 && register != 0
    ensures var word := Put(c.regs[Reg(register)], low, high, value);
            SetField(c, register, low, high, value) == Chip(c.regs[Reg(register) := word][MODE := 0], word)
    ensures Cut(SetField(c, register, low, high, value).out, low, high) == And(value, Mask(low, high))
  {
    hide And, Or, Not, Left, Right, Mask, Put, Wide, Get, Bit, Low16, LOW16, Narrow, Read, Write, Cut;
    var x := c.regs[Reg(register)];
    var before := Read(c, register);
    ReadMeaning(c, register);
    NarrowIsLow16(x);
    PutShifted(x, low, high, value);
    var word := Put(x, low, high, value);
    PutNarrow(x, low, high, value);
    NarrowIsLow16(word);
    WriteMeaning(before, register, word);
    var written := Write(before, register, word);
    ReadMeaning(written, register);
    assert c.regs[MODE := 0][Reg(register) := word][MODE := 0][MODE := 0] == c.regs[Reg(register) := word][MODE := 0];
    CutIsGet(word, low, high);
    GetAfterPut(x, low, high, value);
  }

  lemma NarrowIsLow16(x: Word)
    requires Narrow(x)
    ensures Low16(x) == x
  {
    hide And, LOW16;
  }

  /** Bit for bit: exactly the bits lsb to msb of the one register change, to the bits of the value. */
  lemma SetFieldBits(c: Chip, register: bv8, low: Place, high: Place, value: Word, i: Place)
    requires Whole(c) && low <= high <= 15 && register != 0 && i < 16
    ensures Bit(SetField(c, register, low, high, value).regs[Reg(register)], i)
         == if low <= i <= high then Bit(value, i - low) else Bit(c.regs[Reg(register)], i)
    ensures forall a: bv8 :: a != register && a != 0 ==>
              SetField(c, register, low, high, value).regs[Reg(a)] == c.regs[Reg(a)]
  {
    hide Bit, Put, Wide, SetField, Cut, Narrow;
    SetFieldMeaning(c, register, low, high, value);
    BitOfPut(c.regs[Reg(register)], low, high, value, i);
  }

  lemma SetFieldMode(c: Chip, register: bv8, low: Place, high: Place, value: Word)
    requires Whole(c) && low <= high <= 15 && register != 0
    ensures !Readout(SetField(c, register, low, high, value))
  {
    hide Bit, Put, Wide, SetField, Cut, Narrow;
    SetFieldMeaning(c, register, low, high, value);
    Modes();
  }

  /** Of all registers but 0, which is left in write mode, exactly the bits low to high of the one changed, to the
      bits of the value. */
  ghost predicate Rewritten(before: Chip, after: Chip, register: bv8, low: Place, high: Place, value: Word)
    requires Whole(before) && Whole(after)
  {
    && !Readout(after)
    && (forall a: bv8 :: a != 0 && a != register ==> after.regs[Reg(a)] == before.regs[Reg(a)])
    && Overwritten(before.regs[Reg(register)], after.regs[Reg(register)], low, high, value)
  }

  lemma SetFieldRewrites(c: Chip, register: bv8, low: Place, high: Place, value: Word)
    requires Whole(c) && low <= high <= 15 && register != 0
    ensures Rewritten(c, SetField(c, register, low, high, value), register, low, high, value)
  {
    hide Bit, Put, SetField, Readout, Overwritten, Cut, Narrow;
    SetFieldMode(c, register, low, high, value);
    SetFieldMeaning(c, register, low, high, value);
    PutOverwrites(c.regs[Reg(register)], low, high, value);
  }

  /** A function in register 0 is lost: the register ends as zero whatever was asked for. */
  lemma RegisterZeroIsLost(c: Chip, low: Place, high: Place, value: Word)
    requires Whole(c) && low <= high <= 15
    ensures SetField(c, 0, low, high, value).regs == c.regs[MODE := 0]
  {
    hide And, Or, Not, Left, Mask, Bit, Low16, LOW16, Narrow, Read, Write;
    var mask := Left(Mask(low, high), low);
    ReadMeaning(c, 0);
    var before := Read(c, 0);
    var word := Or(And(Low16(before.out), Not(mask)), And(Left(value, low), mask));
    WriteMeaning(before, 0, word);
    ReadMeaning(Write(before, 0, word), 0);
  }

  /** So a field write lands exactly when it is not for register 0, or asks for an all-zero register. */
  lemma SetFieldLandsIff(c: Chip, register: bv8, low: Place, high: Place, value: Word)
    requires Whole(c) && low <= high <= 15
    ensures var word := Put(c.regs[Reg(register)], low, high, value);
            SetField(c, register, low, high, value).regs[Reg(register)] == word <==> register != 0 || word == 0
  {
    hide Put, Wide, SetField, Cut, Narrow;
    if register == 0 {
      RegisterZeroIsLost(c, low, high, value);
    } else {
      SetFieldMeaning(c, register, low, high, value);
    }
  }

  /** The registers after setting a field. */
  function Fielded(regs: map<Address, Word>, register: bv8, low: Place, high: Place, value: Word): map<Address, Word>
    requires low <= high <= 15 && Reg(register) in regs
  {
    (if register == 0 then regs else regs[Reg(register) := Put(regs[Reg(register)], low, high, value)])[MODE := 0]
  }

  lemma SetFieldRegs(c: Chip, register: bv8, low: Place, high: Place, value: Word)
    requires Whole(c) && low <= high <= 15
    ensures SetField(c, register, low, high, value).regs == Fielded(c.regs, register, low, high, value)
  {
    hide Put, Wide, SetField, Cut, Narrow;
    if register == 0 {
      RegisterZeroIsLost(c, low, high, value);
    } else {
      SetFieldMeaning(c, register, low, high, value);
    }
  }

  lemma FieldsCommute(c: Chip, r: bv8, low: Place, high: Place, v: Word, r': bv8, low': Place, high': Place, w: Word)
    requires Whole(c) && low <= high <= 15 && low' <= high' <= 15
    requires r == r' ==> Apart(low, high, low', high')
    ensures SetField(SetField(c, r, low, high, v), r', low', high', w).regs
         == SetField(SetField(c, r', low', high', w), r, low, high, v).regs
  {
    hide Put, Wide, SetField, Cut, Narrow;
    SetFieldRegs(c, r, low, high, v);
    SetFieldRegs(c, r', low', high', w);
    SetFieldRegs(SetField(c, r, low, high, v), r', low', high', w);
    SetFieldRegs(SetField(c, r', low', high', w), r, low, high, v);
    if r == r' && r != 0 {
      PutsCommute(c.regs[Reg(r)], low, high, v, low', high', w);
    }
    assert Fielded(Fielded(c.regs, r, low, high, v), r', low', high', w)
        == Fielded(Fielded(c.regs, r', low', high', w), r, low, high, v);
  }

  // ---- Runs of calls ----

  datatype Call =
    | SetRegister(register: bv8, data: Word)
    | GetRegister(register: bv8)
    | SetFunction(name: string, value: bv16)
    | GetFunction(name: string)

  /** The source says what the call does: the field it cuts out runs forwards. */
  predicate Defined(t: Table, call: Call) {
    match call
    case SetFunction(name, v) =>
      var row := Find(t, name);
      row.Row? && Accepts(row.options, v) ==> Forwards(row)
    case GetFunction(name) =>
      var row := Find(t, name);
      row.Row? ==> Forwards(row)
    case _ => true
  }

  /** All calls are, but those that reach the mask of the one backward function. */
  lemma DefinedIff(t: Table, call: Call)
    requires Shipped(t)
    ensures !Defined(t, call) <==>
            match call
            case SetFunction(name, v) => name == BACKWARDS && Accepts(t.options, v)
            case GetFunction(name) => name == BACKWARDS
            case _ => false
  {
    hide Accepts, Sound, Ones, RowFits;
    match call
    case SetFunction(name, v) =>
      if Find(t, name).Row? {
        ShippedFits(t, name);
      }
    case GetFunction(name) =>
      if Find(t, name).Row? {
        ShippedFits(t, name);
      }
    case _ =>
  }

  /** A call on the chip; a refused one does nothing. */
  function Do(t: Table, c: Chip, call: Call): (r: Chip)
    requires Whole(c) && Shipped(t) && Defined(t, call)
    ensures Whole(r)
  {
    match call
    case SetRegister(r, v) => if r in REGISTER_LIST then Write(c, r, v) else c
    case GetRegister(r) => if r in REGISTER_LIST then Read(c, r) else c
    case SetFunction(name, v) =>
      var row := Find(t, name);
      if row.Row? && Accepts(row.options, v) then
        ShippedFits(t, name);
        SetField(c, row.register, row.lsb, row.msb, Wide(v))
      else c
    case GetFunction(name) =>
      var row := Find(t, name);
      if row.Row? then Read(c, row.register) else c
  }

  /** Two different functions can be set in either order. */
  lemma FunctionsCommute(t: Table, c: Chip, a: string, v: bv16, b: string, w: bv16)
    requires Whole(c) && Shipped(t) && a != b
    requires Defined(t, SetFunction(a, v)) && Defined(t, SetFunction(b, w))
    ensures Do(t, Do(t, c, SetFunction(a, v)), SetFunction(b, w)).regs
         == Do(t, Do(t, c, SetFunction(b, w)), SetFunction(a, v)).regs
  {
    hide Shipped, Find, SetField, Put, Wide, Cut, Narrow, Ones, Accepts, RowFits, Whole;
    var p, q := Find(t, a), Find(t, b);
    if p.Row? && q.Row? && Accepts(p.options, v) && Accepts(q.options, w) {
      ShippedFits(t, a);
      ShippedFits(t, b);
      ShippedApart(t, a, b);
      FieldsCommute(c, p.register, p.lsb, p.msb, Wide(v), q.register, q.lsb, q.msb, Wide(w));
    }
  }

  /** An accepted setting of a function outside register 0 is read back as it was asked for. */
  lemma AcceptedReadsBack(t: Table, c: Chip, name: string, v: bv16)
    requires Whole(c) && Shipped(t) && Find(t, name).Row? && Defined(t, SetFunction(name, v))
    requires Find(t, name).register != 0 && Accepts(Find(t, name).options, v)
    ensures Find(t, name).lsb <= Find(t, name).msb <= 15
    ensures Cut(Do(t, c, SetFunction(name, v)).out, Find(t, name).lsb, Find(t, name).msb) == Wide(v)
  {
    hide Shipped, Find, SetField, Put, Wide, Cut, Narrow, Ones, Accepts, RowFits, And, Mask;
    var row := Find(t, name);
    ShippedFits(t, name);
    SetFieldMeaning(c, row.register, row.lsb, row.msb, Wide(v));
    AcceptedFits(row, v);
  }

  /** The same call on a plain set of registers: a store, or nothing; never to register 0. */
  function Ideal(t: Table, regs: map<Address, Word>, call: Call): (r: map<Address, Word>)
    requires Shipped(t) && Defined(t, call) && (forall a: bv8 :: Reg(a) in regs)
    ensures forall a: bv8 :: Reg(a) in r
  {
    match call
    case SetRegister(r, v) => if r in REGISTER_LIST && r != 0 then regs[Reg(r) := Low16(v)] else regs
    case SetFunction(name, v) =>
      var row := Find(t, name);
      if row.Row? && Accepts(row.options, v) && row.register != 0 then
        ShippedFits(t, name);
        regs[Reg(row.register) := Put(regs[Reg(row.register)], row.lsb, row.msb, Wide(v))]
      else regs
    case _ => regs
  }

  /** Every call returns the chip to write mode, and changes the registers other than 0 as it should. */
  lemma DoIsIdeal(t: Table, c: Chip, call: Call)
    requires Whole(c) && Shipped(t) && Defined(t, call) && !Readout(c)
    ensures !Readout(Do(t, c, call))
    ensures Do(t, c, call).regs[MODE := 0] == Ideal(t, c.regs, call)[MODE := 0]
  {
    hide Shipped, Find, SetField, Put, Wide, Cut, Narrow, Ones, Accepts, Write, Read, Bit, REGISTER_LIST, Low16;
    Modes();
    match call
    case SetRegister(r, v) => WriteMeaning(c, r, v);
    case GetRegister(r) => ReadMeaning(c, r);
    case SetFunction(name, v) =>
      var row := Find(t, name);
      if row.Row? && Accepts(row.options, v) {
        ShippedFits(t, name);
        SetFieldRegs(c, row.register, row.lsb, row.msb, Wide(v));
      }
    case GetFunction(name) =>
      var row := Find(t, name);
      if row.Row? {
        ReadMeaning(c, row.register);
      }
  }

  ghost predicate AllDefined(t: Table, calls: seq<Call>) { forall i :: 0 <= i < |calls| ==> Defined(t, calls[i]) }

  ghost function Run(t: Table, c: Chip, calls: seq<Call>): (r: Chip)
    requires Whole(c) && Shipped(t) && AllDefined(t, calls)
    ensures Whole(r)
  {
    if calls == [] then c else Do(t, Run(t, c, calls[..|calls| - 1]), calls[|calls| - 1])
  }

  ghost function IdealRun(t: Table, regs: map<Address, Word>, calls: seq<Call>): (r: map<Address, Word>)
    requires Shipped(t) && AllDefined(t, calls) && (forall a: bv8 :: Reg(a) in regs)
    ensures forall a: bv8 :: Reg(a) in r
  {
    if calls == [] then regs else Ideal(t, IdealRun(t, regs, calls[..|calls| - 1]), calls[|calls| - 1])
  }

  lemma IdealIgnoresMode(t: Table, regs: map<Address, Word>, regs': map<Address, Word>, call: Call)
    requires Shipped(t) && Defined(t, call) && (forall a: bv8 :: Reg(a) in regs && Reg(a) in regs')
    requires regs[MODE := 0] == regs'[MODE := 0]
    ensures Ideal(t, regs, call)[MODE := 0] == Ideal(t, regs', call)[MODE := 0]
  {
    hide Shipped, Find, Put, Wide, Ones, Accepts, REGISTER_LIST, Low16;
    forall a: bv8 | a != 0
      ensures regs[Reg(a)] == regs'[Reg(a)]
    {
      assert regs[MODE := 0][Reg(a)] == regs'[MODE := 0][Reg(a)];
    }
    match call
    case SetRegister(r, v) =>
      assert r != 0 ==> regs[Reg(r) := Low16(v)][MODE := 0] == regs[MODE := 0][Reg(r) := Low16(v)];
      assert r != 0 ==> regs'[Reg(r) := Low16(v)][MODE := 0] == regs'[MODE := 0][Reg(r) := Low16(v)];
    case SetFunction(name, v) =>
      var r := Find(t, name);
      if r.Row? && Accepts(r.options, v) && r.register != 0 {
        ShippedFits(t, name);
        var x := Put(regs[Reg(r.register)], r.lsb, r.msb, Wide(v));
        assert regs[Reg(r.register) := x][MODE := 0] == regs[MODE := 0][Reg(r.register) := x];
        assert regs'[Reg(r.register) := x][MODE := 0] == regs'[MODE := 0][Reg(r.register) := x];
      }
    case _ =>
  }

  /** Over any run of defined calls from write mode the chip stays in write mode, and its registers other than 0
      are those of the ideal. */
  lemma {:induction false} RunIsIdeal(t: Table, c: Chip, calls: seq<Call>)
    requires Whole(c) && Shipped(t) && AllDefined(t, calls) && !Readout(c)
    ensures !Readout(Run(t, c, calls))
    ensures Run(t, c, calls).regs[MODE := 0] == IdealRun(t, c.regs, calls)[MODE := 0]
  {
    hide Shipped, Defined, Do, Ideal, Readout, Narrow;
    if calls != [] {
      var n := |calls| - 1;
      RunIsIdeal(t, c, calls[..n]);
      var mid := Run(t, c, calls[..n]);
      DoIsIdeal(t, mid, calls[n]);
      IdealIgnoresMode(t, mid.regs, IdealRun(t, c.regs, calls[..n]), calls[n]);
    }
  }

  // ---- The driver object ----

  datatype Failure = RegisterNotListed | FunctionUnknown | ValueNotAccepted

  datatype Outcome = Value(v: Word) | Failed(why: Failure)

  class Driver {
    /** The chips behind afeControl_0 to afeControl_4. */
    var chips: seq<Chip>
    var registerList: set<bv8>
    const functions: Table

    ghost predicate Valid()
      reads this
    {
      && |chips| == 5 && (forall i :: 0 <= i < 5 ==> Whole(chips[i]))
      && registerList == REGISTER_LIST
      && Shipped(functions)
    }

    constructor (chips: seq<Chip>)
      requires |chips| == 5 && forall i :: 0 <= i < 5 ==> Whole(chips[i])
      ensures Valid() && this.chips == chips && functions == ShippedTable()
    {
      hide Shipped, ShippedTable;
      this.chips := chips;
      registerList := REGISTER_LIST;
      functions := ShippedTable();
      ShippedTableIs();
    }

    /** Spi::setData on an AFE control register. */
    method Send(afe: nat, word: Word)
      requires Valid() && afe < 5
      modifies this`chips
      ensures Valid()
      ensures chips == old(chips)[afe := Transfer(old(chips)[afe], word)]
    {
      hide Shipped, Transfer;
      chips := chips[afe := Transfer(chips[afe], word)];
    }

    method SetRegister(afe: nat, register: bv8, value: Word) returns (o: Outcome)
      requires Valid() && afe < 5
      modifies this`chips
      ensures Valid()
      ensures register !in REGISTER_LIST ==> o == Failed(RegisterNotListed) && chips == old(chips)
      ensures register in REGISTER_LIST ==>
                && chips == old(chips)[afe := Write(old(chips)[afe], register, value)]
                && o == Value(Low16(chips[afe].out))
    {
      hide Shipped, Transfer, REGISTER_LIST, Sent, Low16, Whole;
      if register !in registerList {
        return Failed(RegisterNotListed);
      }
      var word := Sent(register, value);
      Send(afe, word);
      Send(afe, READOUT_ON);
      Send(afe, word & 0xFF0000);
      var readValue := Low16(chips[afe].out);
      ghost var before := chips[afe];
      Send(afe, READOUT_OFF);
      OffKeepsOut(before);
      o := Value(readValue);
    }

    method GetRegister(afe: nat, register: bv8) returns (o: Outcome)
      requires Valid() && afe < 5
      modifies this`chips
      ensures Valid()
      ensures register !in REGISTER_LIST ==> o == Failed(RegisterNotListed) && chips == old(chips)
      ensures register in REGISTER_LIST ==>
                && chips == old(chips)[afe := Read(old(chips)[afe], register)]
                && o == Value(Low16(chips[afe].out))
    {
      hide Shipped, Transfer, REGISTER_LIST, Low16, Whole;
      if register !in registerList {
        return Failed(RegisterNotListed);
      }
      Send(afe, READOUT_ON);
      Send(afe, (register as Word) << 16);
      var value := Low16(chips[afe].out);
      ghost var before := chips[afe];
      Send(afe, READOUT_OFF);
      OffKeepsOut(before);
      o := Value(value);
    }

    /** The register accesses of setAFEFunction: read, rewrite the field, write, read back. */
    method RewriteField(afe: nat, row: Table, value: bv16) returns (v: Word)
      requires Valid() && afe < 5 && row.Row? && RowFits(row) && row.lsb <= row.msb <= 15
      modifies this`chips
      ensures Valid()
      ensures chips == old(chips)[afe := SetField(old(chips)[afe], row.register, row.lsb, row.msb, Wide(value))]
      ensures v == Cut(chips[afe].out, row.lsb, row.msb)
    {
      hide Shipped, REGISTER_LIST, Low16, LOW16, Whole, Read, Write, Cut, And, Or, Not, Left, Right, Mask, Ones, Wide;
      ghost var c := chips[afe];
      var mask := Left(Mask(row.lsb, row.msb), row.lsb);
      var got := GetRegister(afe, row.register);
      var word := And(got.v, Not(mask));
      word := Or(word, And(Left(Wide(value), row.lsb), mask));
      var _ := SetRegister(afe, row.register, word);
      got := GetRegister(afe, row.register);
      assert chips == old(chips)[afe := SetField(c, row.register, row.lsb, row.msb, Wide(value))];
      CutOfLow16(chips[afe].out, row.lsb, row.msb);
      v := Right(And(got.v, mask), row.lsb);
    }

    method SetAFEFunction(afe: nat, name: string, value: bv16) returns (o: Outcome)
      requires Valid() && afe < 5 && Defined(functions, SetFunction(name, value))
      modifies this`chips
      ensures Valid()
      ensures chips == old(chips)[afe := Do(functions, old(chips)[afe], SetFunction(name, value))]
      ensures o == Failed(FunctionUnknown) <==> Find(functions, name).End?
      ensures o == Failed(ValueNotAccepted) <==> Find(functions, name).Row? && !Accepts(Find(functions, name).options, value)
      ensures o.Failed? ==> o == Failed(FunctionUnknown) || o == Failed(ValueNotAccepted)
      ensures var row := Find(functions, name);
              row.Row? && |row.options| == 2 ==>
                (o == Failed(ValueNotAccepted) <==> !(row.options[0] as int <= value as int <= row.options[1] as int))
      ensures var row := Find(functions, name);
              row.Row? && |row.options| != 2 ==>
                (o == Failed(ValueNotAccepted) <==> forall i :: 0 <= i < |row.options| ==> row.options[i] != value)
      ensures o.Failed? ==> chips == old(chips)
      ensures o.Value? && Find(functions, name).register != 0 ==>
                && o.v == Wide(value)
                && var row := Find(functions, name);
                   Rewritten(old(chips)[afe], chips[afe], row.register, row.lsb, row.msb, Wide(value))
    {
      hide Shipped, Find, Accepts, REGISTER_LIST, Low16, LOW16, Whole, SetField, Cut, Ones, Wide, Rewritten;
      var row := Find(functions, name);
      if row.End? {
        return Failed(FunctionUnknown);
      }
      AcceptsExactly(row.options, value);
      if !Accepts(row.options, value) {
        return Failed(ValueNotAccepted);
      }
      ShippedFits(functions, name);
      ghost var c := chips[afe];
      var v := RewriteField(afe, row, value);
      if row.register != 0 {
        AcceptedReadsBack(functions, c, name, value);
        SetFieldRewrites(c, row.register, row.lsb, row.msb, Wide(value));
      }
      o := Value(v);
    }

    method GetAFEFunction(afe: nat, name: string) returns (o: Outcome)
      requires Valid() && afe < 5 && Defined(functions, GetFunction(name))
      modifies this`chips
      ensures Valid()
      ensures chips == old(chips)[afe := Do(functions, old(chips)[afe], GetFunction(name))]
      ensures o.Failed? <==> Find(functions, name).End?
      ensures o.Value? && Find(functions, name).register != 0 ==>
                var row := Find(functions, name);
                && row.lsb <= row.msb <= 15
                && o.v == Get(old(chips)[afe].regs[Reg(row.register)], row.lsb, row.msb)
    {
      hide Shipped, Find, REGISTER_LIST, Low16, LOW16, Read, Cut, And, Left, Right, Mask, Ones, Get, Narrow, Bit;
      var row := Find(functions, name);
      if row.End? {
        return Failed(FunctionUnknown);
      }
      ShippedFits(functions, name);
      ghost var c := chips[afe];
      var mask := Left(Mask(row.lsb, row.msb), row.lsb);
      var got := GetRegister(afe, row.register);
      ReadMeaning(c, row.register);
      CutOfLow16(chips[afe].out, row.lsb, row.msb);
      if row.register != 0 {
        CutIsGet(c.regs[Reg(row.register)], row.lsb, row.msb);
      }
      o := Value(Right(And(got.v, mask), row.lsb));
    }
  }

  /** Leaving readout mode does not disturb the word read. */
  lemma OffKeepsOut(c: Chip)
    requires Whole(c)
    ensures Transfer(c, READOUT_OFF).out == c.out
  {
    Modes();
    hide AddressIn;
  }

  lemma CutOfLow16(word: Word, low: Place, high: Place)
    requires low <= high <= 15
    ensures Right(And(Low16(word), Left(Mask(low, high), low)), low) == Cut(word, low, high)
  {
  }
}
