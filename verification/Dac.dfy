/** The channel DACs of srcs/Dac.cpp. One write-only 32-bit register feeds two four-channel DAC chips
    at once, a half-word each, so every write to one channel also rewrites a channel of the other chip
    from a software shadow. */
module Dac {

  import opened DacWord

  datatype Kind = Trim | Offset

  /** afeDacTrim_<afe> and afeDacOffset_<afe>. */
  datatype Register = Register(kind: Kind, afe: nat)

  datatype Position = L | H | Nowhere

  /** A row of CHANNEL_MAPPING; a missing row reads as Wiring(Nowhere, 0). */
  datatype Wiring = Wiring(position: Position, chipChannel: nat)

  const NO_WIRING := Wiring(Nowhere, 0)

  function Home(ch: nat): Wiring
    requires ch < 8
  {
    if ch < 4 then Wiring(L, ch) else Wiring(H, ch - 4)
  }

  function Companion(ch: nat): nat
    requires ch < 8
  {
    if ch < 4 then ch + 4 else ch - 4
  }

  // ---- One register: the shadow and the two chips behind it ----

  /** The four DACs of each chip; neither can be read back. */
  datatype Chips = Chips(low: seq<Half>, high: seq<Half>)

  datatype Bank = Bank(shadow: map<nat, Half>, chips: Chips)

  datatype Request = Request(ch: nat, value: bv32, gain: bool, buffer: bool)

  function Stored(shadow: map<nat, Half>, ch: nat, h: Half): map<nat, Half> { shadow[ch := h] }

  ghost predicate Whole(b: Bank) {
    && (forall c: nat :: c in b.shadow <==> c < 8)
    && |b.chips.low| == |b.chips.high| == 4
  }

  /** What the hardware does with a word. */
  function Settle(chips: Chips, word: bv32): (r: Chips)
    requires |chips.low| == |chips.high| == 4
    ensures |r.low| == |r.high| == 4
  {
    Chips(chips.low[Tag(LowHalf(word)) := Payload(LowHalf(word))], chips.high[Tag(HighHalf(word)) := Payload(HighHalf(word))])
  }

  function Output(b: Bank, ch: nat): Half
    requires Whole(b) && ch < 8
  {
    if ch < 4 then b.chips.low[ch] else b.chips.high[ch - 4]
  }

  function Encoded(r: Request): Half { Encode(r.ch % 4, r.value, r.gain, r.buffer) }

  function Wanted(r: Request): Half { Level(r.value, r.gain, r.buffer) }

  /** The word updateCurrentRegister sends: the channel's half-word and the companion's shadow. */
  function WordOf(b: Bank, r: Request): bv32
    requires Whole(b) && r.ch < 8
  {
    var other := b.shadow[Companion(r.ch)];
    if r.ch < 4 then Pack(other, Encoded(r)) else Pack(Encoded(r), other)
  }

  lemma WordOfIs(b: Bank, r: Request)
    requires Whole(b) && r.ch < 8
    ensures WordFor(WordOf(b, r), r.ch, Encode(r.ch % 4, r.value, r.gain, r.buffer),
                    b.shadow[if r.ch < 4 then r.ch + 4 else r.ch - 4])
  {
    hide Pack, WordFor, Encode;
    PackIsWord(r.ch, Encoded(r), b.shadow[Companion(r.ch)]);
  }

  /** updateCurrentRegister on a known register and channel. */
  function Update(b: Bank, r: Request): (b': Bank)
    requires Whole(b) && r.ch < 8
    ensures Whole(b')
  {
    Bank(Stored(b.shadow, r.ch, Encoded(r)), Settle(b.chips, WordOf(b, r)))
  }

  /** The DAC the companion half-word of a write to ch lands on. */
  function Echo(b: Bank, ch: nat): (e: nat)
    requires Whole(b) && ch < 8
    ensures e < 8 && e != ch
  {
    (if ch < 4 then 4 else 0) + Tag(b.shadow[Companion(ch)])
  }

  lemma EncodedDecodes(r: Request)
    ensures Tag(Encoded(r)) == r.ch % 4 && Payload(Encoded(r)) == Wanted(r)
  {
    hide Encode, Level, Tag, Payload;
    EncodeDecodes(r.ch % 4, r.value, r.gain, r.buffer);
  }

  lemma UpdateChips(b: Bank, r: Request)
    requires Whole(b) && r.ch < 8
    ensures var other := b.shadow[Companion(r.ch)];
            Update(b, r).chips
            == if r.ch < 4
               then Chips(b.chips.low[r.ch := Wanted(r)], b.chips.high[Tag(other) := Payload(other)])
               else Chips(b.chips.low[Tag(other) := Payload(other)], b.chips.high[r.ch - 4 := Wanted(r)])
  {
    hide Pack, HighHalf, LowHalf, Encoded, Wanted, Payload, Tag;
    var other := b.shadow[Companion(r.ch)];
    EncodedDecodes(r);
    PackSplits(other, Encoded(r));
    PackSplits(Encoded(r), other);
  }

  /** A write sets its own DAC, sets the one its companion half-word is tagged for, and no other. */
  lemma UpdateOutputs(b: Bank, r: Request, c: nat)
    requires Whole(b) && r.ch < 8 && c < 8
    ensures Output(Update(b, r), c)
         == if c == r.ch then Wanted(r) else if c == Echo(b, r.ch) then Payload(b.shadow[Companion(r.ch)]) else Output(b, c)
  {
    hide Update, Wanted, Payload, Tag;
    UpdateChips(b, r);
  }

  lemma UpdateShadow(b: Bank, r: Request)
    requires Whole(b) && r.ch < 8
    ensures Update(b, r).shadow == Stored(b.shadow, r.ch, Encoded(r))
  {
  }

  /** Every shadow is tagged for its own DAC and equals what the DAC holds. */
  ghost predicate Agree(b: Bank)
    requires Whole(b)
  {
    forall c :: 0 <= c < 8 ==> Tag(b.shadow[c]) == c % 4 && Payload(b.shadow[c]) == Output(b, c)
  }

  /** Agreement is kept by every write, which then changes its own DAC only. */
  lemma UpdateKeepsAgreement(b: Bank, r: Request)
    requires Whole(b) && Agree(b) && r.ch < 8
    ensures Agree(Update(b, r))
    ensures Output(Update(b, r), r.ch) == Wanted(r)
    ensures forall c :: 0 <= c < 8 && c != r.ch ==> Output(Update(b, r), c) == Output(b, c)
  {
    hide Encoded, Wanted, Payload, Tag, Output, Update;
    EncodedDecodes(r);
    UpdateShadow(b, r);
    forall c: nat | c < 8
      ensures Output(Update(b, r), c) == if c == r.ch then Wanted(r) else Output(b, c)
    {
      UpdateOutputs(b, r, c);
    }
  }

  /** In terms of what the chips hold, one write leaves the other seven DACs alone exactly if the one it echoes
      on already holds the companion's level. See WrittenOthersKeptIff for a condition a caller can check. */
  lemma OthersKeptIff(b: Bank, r: Request)
    requires Whole(b) && r.ch < 8
    ensures (forall c :: 0 <= c < 8 && c != r.ch ==> Output(Update(b, r), c) == Output(b, c))
        <==> Output(b, Echo(b, r.ch)) == Payload(b.shadow[Companion(r.ch)])
  {
    forall c: nat | c < 8
      ensures Output(Update(b, r), c)
           == if c == r.ch then Wanted(r) else if c == Echo(b, r.ch) then Payload(b.shadow[Companion(r.ch)]) else Output(b, c)
    {
      UpdateOutputs(b, r, c);
    }
    hide Pack, Encode, Level, Payload, Tag, Settle, Output, Update, Echo;
  }

  // ---- Runs from power-up, in any order ----

  ghost predicate PowerUp(b: Bank) {
    Whole(b) && forall c :: 0 <= c < 8 ==> b.shadow[c] == 0
  }

  predicate Known(reqs: seq<Request>) { forall i :: 0 <= i < |reqs| ==> reqs[i].ch < 8 }

  function Run(b: Bank, reqs: seq<Request>): (b': Bank)
    requires Whole(b) && Known(reqs)
    ensures Whole(b')
  {
    if reqs == [] then b else Update(Run(b, reqs[..|reqs| - 1]), reqs[|reqs| - 1])
  }

  predicate Written(reqs: seq<Request>, c: nat) { exists i :: 0 <= i < |reqs| && reqs[i].ch == c }

  /** The last request for a channel. */
  function Latest(reqs: seq<Request>, c: nat): (r: Request)
    requires Written(reqs, c)
    ensures r.ch == c
  {
    var n := |reqs| - 1;
    if reqs[n].ch == c then reqs[n] else Latest(reqs[..n], c)
  }

  predicate SameChip(c: nat, d: nat) { (c < 4) == (d < 4) }

  /** The last write to reach the first DAC of c's chip came from the other chip while the shadow of its
      companion was still zero, which reads as level zero for that first DAC. */
  predicate Clobbered(reqs: seq<Request>, c: nat)
    requires Known(reqs) && c < 8
  {
    if reqs == [] then false
    else
      var n := |reqs| - 1;
      var ch := reqs[n].ch;
      if ch == c || ch == Companion(c) then false
      else if !SameChip(ch, c) && !Written(reqs[..n], Companion(ch)) then true
      else Clobbered(reqs[..n], c)
  }

  lemma ZeroShadow()
    ensures Tag(0) == 0 && Payload(0) == 0
  {
  }

  lemma WrittenStep(reqs: seq<Request>, c: nat)
    requires reqs != []
    ensures Written(reqs, c) <==> reqs[|reqs| - 1].ch == c || Written(reqs[..|reqs| - 1], c)
  {
    var n := |reqs| - 1;
    if Written(reqs[..n], c) {
      var i :| 0 <= i < n && reqs[..n][i].ch == c;
      assert reqs[i].ch == c;
    }
    if Written(reqs, c) && reqs[n].ch != c {
      var i :| 0 <= i < |reqs| && reqs[i].ch == c;
      assert reqs[..n][i].ch == c;
    }
  }

  lemma {:induction false} RunShadow(b: Bank, reqs: seq<Request>, c: nat)
    requires PowerUp(b) && Known(reqs) && c < 8
    ensures Run(b, reqs).shadow[c] == if Written(reqs, c) then Encoded(Latest(reqs, c)) else 0
  {
    hide Settle, Pack, Encoded, Tag, Payload, Written;
    if reqs == [] {
      NothingWritten(c);
    } else {
      RunShadow(b, reqs[..|reqs| - 1], c);
      WrittenStep(reqs, c);
    }
  }

  lemma NothingWritten(c: nat)
    ensures !Written([], c)
  {
  }

  /** Whatever the order, a channel that was written holds its last request, except that the first
      DAC of a chip holds zero if it was clobbered since. */
  lemma {:induction false} RunOutputs(b: Bank, reqs: seq<Request>, c: nat)
    requires PowerUp(b) && Known(reqs) && c < 8 && Written(reqs, c)
    ensures Output(Run(b, reqs), c) == if c % 4 == 0 && Clobbered(reqs, c) then 0 else Wanted(Latest(reqs, c))
  {
    hide Settle, Pack, Encoded, Tag, Payload, Written, Output, Update, Wanted;
    if reqs == [] {
      NothingWritten(c);
    } else {
      var n := |reqs| - 1;
      var front, r := reqs[..n], reqs[n];
      var before := Run(b, front);
      UpdateOutputs(before, r, c);
      WrittenStep(reqs, c);
      var mate := Companion(r.ch);
      RunShadow(b, front, mate);
      if Written(front, mate) {
        EncodedDecodes(Latest(front, mate));
      } else {
        ZeroShadow();
      }
      if c != r.ch {
        RunOutputs(b, front, c);
      }
    }
  }

  /** No order of writes ever loses the setting of any channel but 0 and 4. */
  lemma OnlyFirstDacsAtRisk(b: Bank, reqs: seq<Request>, c: nat)
    requires PowerUp(b) && Known(reqs) && c < 8 && Written(reqs, c) && c != 0 && c != 4
    ensures Output(Run(b, reqs), c) == Wanted(Latest(reqs, c))
  {
    RunOutputs(b, reqs, c);
    hide Output, Run, Latest, Wanted;
  }

  /** For channels 0 and 4 the exact condition. */
  lemma FirstDacKeptIff(b: Bank, reqs: seq<Request>, c: nat)
    requires PowerUp(b) && Known(reqs) && (c == 0 || c == 4) && Written(reqs, c)
    ensures Output(Run(b, reqs), c) == Wanted(Latest(reqs, c)) <==> !Clobbered(reqs, c) || Wanted(Latest(reqs, c)) == 0
  {
    RunOutputs(b, reqs, c);
    hide Output, Run, Latest, Wanted;
  }

  lemma OneMore(reqs: seq<Request>, r: Request, c: nat)
    requires Known(reqs) && r.ch < 8 && c < 8 && c != r.ch && Written(reqs, c)
    ensures Known(reqs + [r]) && Written(reqs + [r], c) && Latest(reqs + [r], c) == Latest(reqs, c)
    ensures Clobbered(reqs + [r], c)
       <==> c != Companion(r.ch)
            && ((!SameChip(r.ch, c) && !Written(reqs, Companion(r.ch))) || Clobbered(reqs, c))
  {
    hide Written;
    var more := reqs + [r];
    assert more[..|more| - 1] == reqs;
    WrittenStep(more, c);
  }

  /** One write after any history from power-up, seen from a channel set before: the setting is lost if and only
      if it is a nonzero one, not lost already, on the first DAC of the other chip, and the companion of the
      channel written has never been set. */
  lemma SettingLostIff(b: Bank, reqs: seq<Request>, r: Request, c: nat)
    requires PowerUp(b) && Known(reqs) && r.ch < 8 && c < 8 && c != r.ch && Written(reqs, c)
    ensures Known(reqs + [r])
    ensures Output(Run(b, reqs), c) == Wanted(Latest(reqs, c)) && Output(Run(b, reqs + [r]), c) != Wanted(Latest(reqs, c))
       <==> c % 4 == 0 && !SameChip(r.ch, c) && !Written(reqs, Companion(r.ch))
            && !Clobbered(reqs, c) && Wanted(Latest(reqs, c)) != 0
  {
    hide Output, Run, Latest, Wanted, Written, Clobbered, Known, Whole, PowerUp;
    OneMore(reqs, r, c);
    RunOutputs(b, reqs, c);
    RunOutputs(b, reqs + [r], c);
  }

  /** The first DAC of the chip that ch is not on. */
  function FirstAcross(ch: nat): nat { if ch < 4 then 4 else 0 }

  /** The write changes the first DAC across: it repairs a clobbered companion, or clobbers a DAC that was not. */
  predicate Disturbs(reqs: seq<Request>, ch: nat)
    requires Known(reqs) && ch < 8
  {
    var first, mate := FirstAcross(ch), Companion(ch);
    && Written(reqs, first) && Wanted(Latest(reqs, first)) != 0
    && if Written(reqs, mate) then mate == first && Clobbered(reqs, first) else !Clobbered(reqs, first)
  }

  lemma OtherKeptIff(b: Bank, reqs: seq<Request>, r: Request, c: nat)
    requires PowerUp(b) && Known(reqs) && r.ch < 8 && c < 8 && c != r.ch && Written(reqs, c)
    ensures Known(reqs + [r])
    ensures Output(Run(b, reqs + [r]), c) == Output(Run(b, reqs), c) <==> c != FirstAcross(r.ch) || !Disturbs(reqs, r.ch)
  {
    hide Output, Run, Latest, Wanted, Written, Clobbered, Known, Whole, PowerUp;
    OneMore(reqs, r, c);
    RunOutputs(b, reqs, c);
    RunOutputs(b, reqs + [r], c);
  }

  /** The condition on the history under which a write leaves every other channel set so far as it is. */
  lemma WrittenOthersKeptIff(b: Bank, reqs: seq<Request>, r: Request)
    requires PowerUp(b) && Known(reqs) && r.ch < 8
    ensures Known(reqs + [r])
    ensures (forall c :: 0 <= c < 8 && c != r.ch && Written(reqs, c) ==> Output(Run(b, reqs + [r]), c) == Output(Run(b, reqs), c))
       <==> !Disturbs(reqs, r.ch)
  {
    hide Output, Run, Wanted, Written, Clobbered, Latest;
    forall c: nat | c < 8 && c != r.ch && Written(reqs, c)
      ensures Output(Run(b, reqs + [r]), c) == Output(Run(b, reqs), c) <==> c != FirstAcross(r.ch) || !Disturbs(reqs, r.ch)
    {
      OtherKeptIff(b, reqs, r, c);
    }
    var first := FirstAcross(r.ch);
    assert first < 8 && first != r.ch;
    assert Disturbs(reqs, r.ch) ==> Written(reqs, first);
    hide Disturbs, FirstAcross;
  }

  /** Once everything is written and nothing stays clobbered, the bank agrees. */
  lemma RunAgrees(b: Bank, reqs: seq<Request>)
    requires PowerUp(b) && Known(reqs)
    requires forall c :: 0 <= c < 8 ==> Written(reqs, c)
    requires !Clobbered(reqs, 0) && !Clobbered(reqs, 4)
    ensures Agree(Run(b, reqs))
    ensures forall c :: 0 <= c < 8 ==> Output(Run(b, reqs), c) == Wanted(Latest(reqs, c))
  {
    hide Written, Output, Run, Latest, Wanted, Tag, Payload, Encoded, Clobbered;
    forall c: nat | c < 8
      ensures Output(Run(b, reqs), c) == Wanted(Latest(reqs, c))
      ensures Tag(Run(b, reqs).shadow[c]) == c % 4 && Payload(Run(b, reqs).shadow[c]) == Output(Run(b, reqs), c)
    {
      RunShadow(b, reqs, c);
      RunOutputs(b, reqs, c);
      EncodedDecodes(Latest(reqs, c));
    }
  }

  /** Channels 0 to 7 in ascending order. */
  predicate Ascending(reqs: seq<Request>) { |reqs| == 8 && forall i :: 0 <= i < 8 ==> reqs[i].ch == i }

  lemma {:induction false} AscendingNotClobbered(reqs: seq<Request>, n: nat)
    requires Ascending(reqs) && n <= 8
    ensures Known(reqs[..n]) && !Clobbered(reqs[..n], 0)
    ensures n >= 5 ==> !Clobbered(reqs[..n], 4)
  {
    hide Written;
    if n > 0 {
      AscendingNotClobbered(reqs, n - 1);
      assert reqs[..n][..n - 1] == reqs[..n - 1];
      if n > 4 {
        WrittenAt(reqs[..n - 1], n - 5);
      }
    }
  }

  lemma WrittenAt(reqs: seq<Request>, i: nat)
    requires i < |reqs|
    ensures Written(reqs, reqs[i].ch)
  {
  }

  /** The ascending loop brings shadow and chips into agreement whatever the chips held before. */
  lemma AscendingEstablishesAgreement(b: Bank, reqs: seq<Request>)
    requires PowerUp(b) && Ascending(reqs)
    ensures Agree(Run(b, reqs))
    ensures forall c :: 0 <= c < 8 ==> Output(Run(b, reqs), c) == Wanted(reqs[c])
  {
    hide Written, Latest, Output, Run, Wanted, Clobbered;
    assert reqs[..8] == reqs;
    AscendingNotClobbered(reqs, 8);
    forall c: nat | c < 8
      ensures Written(reqs, c) && Latest(reqs, c) == reqs[c]
    {
      WrittenAt(reqs, c);
      LatestAscending(reqs, c, 8);
    }
    RunAgrees(b, reqs);
  }

  lemma {:induction false} LatestAscending(reqs: seq<Request>, c: nat, n: nat)
    requires Ascending(reqs) && c < n <= 8
    ensures Written(reqs[..n], c) && Latest(reqs[..n], c) == reqs[c]
  {
    WrittenAt(reqs[..n], c);
    if c < n - 1 {
      LatestAscending(reqs, c, n - 1);
      assert reqs[..n][..n - 1] == reqs[..n - 1];
    }
  }

  /** From agreement, any further requests keep it; each DAC ends at its last request if it had one
      and is untouched if it had none. */
  lemma {:induction false} AgreementForever(b: Bank, reqs: seq<Request>)
    requires Whole(b) && Agree(b) && Known(reqs)
    ensures Agree(Run(b, reqs))
    ensures forall c :: 0 <= c < 8 ==>
              Output(Run(b, reqs), c) == if Written(reqs, c) then Wanted(Latest(reqs, c)) else Output(b, c)
  {
    hide Written, Output, Update, Wanted, Agree;
    if reqs == [] {
      forall c: nat | c < 8
        ensures !Written(reqs, c)
      {
        NothingWritten(c);
      }
    } else {
      var n := |reqs| - 1;
      AgreementForever(b, reqs[..n]);
      UpdateKeepsAgreement(Run(b, reqs[..n]), reqs[n]);
      forall c: nat | c < 8
        ensures Output(Run(b, reqs), c) == if Written(reqs, c) then Wanted(Latest(reqs, c)) else Output(b, c)
      {
        WrittenStep(reqs, c);
      }
    }
  }

  /** From power-up, setting channel 4 and then channel 1 resets channel 4 to zero. */
  lemma DescendingClobbers(b: Bank)
    requires PowerUp(b)
    ensures Output(Run(b, [Request(4, 0x123, false, false), Request(1, 0x456, false, false)]), 4) == 0
    ensures Wanted(Request(4, 0x123, false, false)) == 0x123
  {
    var reqs := [Request(4, 0x123, false, false), Request(1, 0x456, false, false)];
    assert reqs[..1] == [Request(4, 0x123, false, false)];
    WrittenAt(reqs, 0);
    RunOutputs(b, reqs, 4);
    hide Output, Run, Wanted, Written;
    WrittenStep(reqs[..1], 5);
    assert reqs[..1][..0] == [];
    NothingWritten(5);
  }
}
