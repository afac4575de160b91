/** The FPGA register access of srcs/reg.cpp: read-modify-write of named bit fields, refined to a map
    from fields to values. Everything holds for any dictionary without shared addresses. */
module Reg {

  import opened Arithmetic
  import opened BitField
  import opened FpgaRegDict
  import opened Wrappers

  type Dictionary = map<Name, Entry>

  /** A register and a bit name the dictionary has. */
  predicate HasField(dict: Dictionary, name: Name, f: Field) {
    name in dict && FieldsFit(dict[name].fields) && Find(dict[name].fields, f).Some?
  }

  function RangeOf(dict: Dictionary, name: Name, f: Field): (r: Range)
    requires HasField(dict, name, f)
    ensures r.low <= r.high < 32
  {
    Find(dict[name].fields, f).value
  }

  type Memory = map<nat, Word>

  /** The mapped memory reaches every register. */
  ghost predicate Mapped(dict: Dictionary, m: Memory) { forall name :: name in dict ==> dict[name].address in m }

  /** The value a field holds. */
  function Value(dict: Dictionary, m: Memory, name: Name, f: Field): Word
    requires Mapped(dict, m) && HasField(dict, name, f)
  {
    var r := RangeOf(dict, name, f);
    Get(m[dict[name].address], r.low, r.high)
  }

  datatype Write = Write(name: Name, field: Field, data: Word)

  predicate Allowed(dict: Dictionary, w: Write) { HasField(dict, w.name, w.field) }

  /** One read-modify-write. */
  function Apply(dict: Dictionary, m: Memory, w: Write): (m': Memory)
    requires Mapped(dict, m) && Allowed(dict, w)
    ensures Mapped(dict, m')
  {
    var r := RangeOf(dict, w.name, w.field);
    m[dict[w.name].address := Put(m[dict[w.name].address], r.low, r.high, w.data)]
  }

  /** The two fields share a bit. */
  predicate Touches(dict: Dictionary, w: Write, name: Name, f: Field)
    requires Allowed(dict, w) && HasField(dict, name, f)
  {
    && w.name == name
    && var r, s := RangeOf(dict, w.name, w.field), RangeOf(dict, name, f);
       !Apart(r.low, r.high, s.low, s.high)
  }

  /** A write changes the word of its own register and no other word. */
  lemma ApplyWord(dict: Dictionary, m: Memory, w: Write, name: Name)
    requires WellLaid(dict) && Mapped(dict, m) && Allowed(dict, w) && name in dict
    ensures var r := RangeOf(dict, w.name, w.field);
            Apply(dict, m, w)[dict[name].address]
            == if name == w.name then Put(m[dict[name].address], r.low, r.high, w.data) else m[dict[name].address]
  {
    hide Put, Find, FieldsFit, RangeOf;
    if name != w.name {
      assert dict[name].address != dict[w.name].address;
    }
  }

  /** A write sets its field to the data cut to the field's width. */
  lemma ApplyOwnField(dict: Dictionary, m: Memory, w: Write)
    requires WellLaid(dict) && Mapped(dict, m) && Allowed(dict, w)
    ensures var r := RangeOf(dict, w.name, w.field);
            Value(dict, Apply(dict, m, w), w.name, w.field) == And(w.data, Mask(r.low, r.high))
  {
    hide Get, Put, Mask, And, Find, FieldsFit, RangeOf, WellLaid, Apply;
    var r := RangeOf(dict, w.name, w.field);
    ApplyWord(dict, m, w, w.name);
    GetAfterPut(m[dict[w.name].address], r.low, r.high, w.data);
  }

  /** A write changes no field it does not share a bit with, in this or any other register. */
  lemma ApplyOtherField(dict: Dictionary, m: Memory, w: Write, name: Name, f: Field)
    requires WellLaid(dict) && Mapped(dict, m) && Allowed(dict, w) && HasField(dict, name, f)
    requires !Touches(dict, w, name, f)
    ensures Value(dict, Apply(dict, m, w), name, f) == Value(dict, m, name, f)
  {
    hide Get, Put, Find, FieldsFit, RangeOf, WellLaid, Apply;
    var r, s := RangeOf(dict, w.name, w.field), RangeOf(dict, name, f);
    ApplyWord(dict, m, w, name);
    if name == w.name {
      GetApart(m[dict[name].address], r.low, r.high, w.data, s.low, s.high);
    }
  }

  ghost predicate AllAllowed(dict: Dictionary, ws: seq<Write>) { forall i :: 0 <= i < |ws| ==> Allowed(dict, ws[i]) }

  ghost function Run(dict: Dictionary, m: Memory, ws: seq<Write>): (m': Memory)
    requires Mapped(dict, m) && AllAllowed(dict, ws)
    ensures Mapped(dict, m')
  {
    if ws == [] then m else Apply(dict, Run(dict, m, ws[..|ws| - 1]), ws[|ws| - 1])
  }

  /** What a map from named fields to values would hold after the writes: the value of the last write to
      the field, cut to its width. Nothing is said once a different field sharing a bit was written later. */
  ghost function Abstract(dict: Dictionary, m: Memory, ws: seq<Write>, name: Name, f: Field): Option<Word>
    requires Mapped(dict, m) && AllAllowed(dict, ws) && HasField(dict, name, f)
  {
    if ws == [] then Some(Value(dict, m, name, f))
    else
      var w := ws[|ws| - 1];
      var r := RangeOf(dict, name, f);
      if w.name == name && w.field == f then Some(And(w.data, Mask(r.low, r.high)))
      else if Touches(dict, w, name, f) then None
      else Abstract(dict, m, ws[..|ws| - 1], name, f)
  }

  /** Any sequence of WriteBits refines the map of named fields. */
  lemma {:induction false} RunRefinesMap(dict: Dictionary, m: Memory, ws: seq<Write>, name: Name, f: Field)
    requires WellLaid(dict) && Mapped(dict, m) && AllAllowed(dict, ws) && HasField(dict, name, f) && Abstract(dict, m, ws, name, f).Some?
    ensures Value(dict, Run(dict, m, ws), name, f) == Abstract(dict, m, ws, name, f).value
  {
    hide Value, Apply, Touches, RangeOf, Find, FieldsFit, WellLaid, Mask, And;
    if ws != [] {
      var n := |ws| - 1;
      if ws[n].name == name && ws[n].field == f {
        ApplyOwnField(dict, Run(dict, m, ws[..n]), ws[n]);
      } else {
        ApplyOtherField(dict, Run(dict, m, ws[..n]), ws[n], name, f);
        RunRefinesMap(dict, m, ws[..n], name, f);
      }
    }
  }

  /** Where a register's fields are disjoint the map always knows the value. */
  lemma {:induction false} MapComplete(dict: Dictionary, m: Memory, ws: seq<Write>, name: Name, f: Field)
    requires WellLaid(dict) && Mapped(dict, m) && AllAllowed(dict, ws) && HasField(dict, name, f)
    requires Disjoint(dict[name].fields)
    ensures Abstract(dict, m, ws, name, f).Some?
  {
    hide Value, FieldsFit, WellLaid, Mask, And, Disjoint, Find, Run;
    if ws != [] {
      var w := ws[|ws| - 1];
      if w.name == name && w.field != f {
        DisjointFieldsApart(dict[name].fields, w.field, f);
      }
      MapComplete(dict, m, ws[..|ws| - 1], name, f);
    }
  }

  /** The bit last written to place i of a register, whatever field it was written through. */
  ghost function LastBit(dict: Dictionary, m: Memory, ws: seq<Write>, name: Name, i: Place): bool
    requires Mapped(dict, m) && AllAllowed(dict, ws) && name in dict && i < 32
  {
    if ws == [] then Bit(m[dict[name].address], i)
    else
      var w := ws[|ws| - 1];
      var r := RangeOf(dict, w.name, w.field);
      if w.name == name && r.low <= i <= r.high then Bit(w.data, i - r.low) else LastBit(dict, m, ws[..|ws| - 1], name, i)
  }

  lemma ApplyBit(dict: Dictionary, m: Memory, w: Write, name: Name, i: Place)
    requires WellLaid(dict) && Mapped(dict, m) && Allowed(dict, w) && name in dict && i < 32
    ensures var r := RangeOf(dict, w.name, w.field);
            Bit(Apply(dict, m, w)[dict[name].address], i)
            <==> if w.name == name && r.low <= i <= r.high then Bit(w.data, i - r.low) else Bit(m[dict[name].address], i)
  {
    hide Bit, Put, Find, FieldsFit, RangeOf, WellLaid, Apply;
    var r := RangeOf(dict, w.name, w.field);
    ApplyWord(dict, m, w, name);
    if name == w.name {
      BitOfPut(m[dict[name].address], r.low, r.high, w.data, i);
    }
  }

  /** Overlapping fields included, every bit of every register holds what was last written to it. */
  lemma {:induction false} RunBits(dict: Dictionary, m: Memory, ws: seq<Write>, name: Name, i: Place)
    requires WellLaid(dict) && Mapped(dict, m) && AllAllowed(dict, ws) && name in dict && i < 32
    ensures Bit(Run(dict, m, ws)[dict[name].address], i) == LastBit(dict, m, ws, name, i)
  {
    hide Bit, Apply, RangeOf, Find, FieldsFit, WellLaid;
    if ws != [] {
      var n := |ws| - 1;
      ApplyBit(dict, Run(dict, m, ws[..n]), ws[n], name, i);
      RunBits(dict, m, ws[..n], name, i);
    }
  }

  class Reg {
    const regDict: Dictionary
    var memory: Memory

    ghost predicate Valid()
      reads this
    {
      WellLaid(regDict) && Mapped(regDict, memory)
    }

    constructor (regDict: Dictionary, memory: Memory)
      requires WellLaid(regDict) && Mapped(regDict, memory)
      ensures Valid() && this.regDict == regDict && this.memory == memory
    {
      this.regDict := regDict;
      this.memory := memory;
    }

    /** GetRegister: ABSENT for an unknown register; no range, the source's -1 and -1, for an unknown bit name. */
    method GetRegister(name: Name, f: Field) returns (address: nat, range: Option<Range>)
      requires Valid()
      ensures address == if name in regDict then regDict[name].address else 0xDEADBEEF
      ensures name in regDict <==> address != ABSENT
      ensures range == if name in regDict then Find(regDict[name].fields, f) else None
    {
      if name in regDict {
        var entry := regDict[name];
        address := entry.address;
        range := Find(entry.fields, f);
      } else {
        address, range := ABSENT, None;
      }
    }

    /** Where a known register plus an offset lies; addresses are uint32. */
    ghost function Place32(name: Name, offset: nat): nat
      requires name in regDict
    {
      (regDict[name].address + offset) % U32
    }

    /** ReadBits: an unknown register reads as the word 0xDEADBEEF. A known register without the bit name would
        shift by a negative amount, which the caller must not ask for. */
    method ReadBits(name: Name, f: Field, offset: nat) returns (v: Word)
      requires Valid() && (name in regDict ==> HasField(regDict, name, f) && Place32(name, offset) in memory)
      ensures name !in regDict ==> v == 0xDEADBEEF
      ensures name in regDict ==>
                && Place32(name, offset) == (regDict[name].address + offset) % 0x1_0000_0000
                && v == Get(memory[Place32(name, offset)], RangeOf(regDict, name, f).low, RangeOf(regDict, name, f).high)
    {
      hide Find, FieldsFit, And, Right, Mask;
      var address, range := GetRegister(name, f);
      if address == ABSENT {
        return 0xDEADBEEF;
      }
      var word := memory[(address + offset) % U32];
      v := And(Right(word, range.value.low), Mask(range.value.low, range.value.high));
    }

    /** WriteBits returns the field read back; nothing is written for an unknown register. */
    method WriteBits(name: Name, f: Field, data: Word) returns (v: Word)
      requires Valid() && (name in regDict ==> HasField(regDict, name, f))
      modifies this`memory
      ensures Valid()
      ensures name !in regDict ==> v == 0xDEADBEEF && memory == old(memory)
      ensures name in regDict ==>
                && memory == Apply(regDict, old(memory), Write(name, f, data))
                && v == Value(regDict, memory, name, f)
                && v == And(data, Mask(RangeOf(regDict, name, f).low, RangeOf(regDict, name, f).high))
                && memory.Keys == old(memory).Keys
                && (forall a :: a in memory && a != regDict[name].address ==> memory[a] == old(memory)[a])
                && var r, at := RangeOf(regDict, name, f), regDict[name].address;
                   Overwritten(old(memory)[at], memory[at], r.low, r.high, data)
    {
      hide Find, FieldsFit, And, Not, Or, Left, Right, Mask, Overwritten;
      var address, range := GetRegister(name, f);
      if address == ABSENT {
        return 0xDEADBEEF;
      }
      ApplyOwnField(regDict, memory, Write(name, f, data));
      var low, high := range.value.low, range.value.high;
      var word := memory[address];
      var mask := Mask(low, high);
      word := And(word, Not(Left(mask, low)));
      word := Or(word, Left(And(data, mask), low));
      memory := memory[address := word];
      PutOverwrites(old(memory)[address], low, high, data);
      v := ReadBits(name, f, 0);
    }
  }
}
