/** The front-end alignment: the calibration sequence of srcs/Daphne.cpp and alignAFE in
    srcs/DaphneSlowController.cpp, and the single-AFE script client/align_all_afes.py, against an arbitrary
    frame clock. */
module Alignment {

  import FpgaRegDict
  import opened LongestRun
  import opened Wrappers
  import opened Arithmetic

  type Word = bv32

  const TARGET: Word := 0x00FF00FF
  const AFES: nat := 5
  const DELAY_TAPS: nat := 512
  const BITSLIP_TAPS: nat := 16

  /** frame(k, afe, delay, bitslip) is the frame-clock word of an AFE that the k-th trigger latches while these
      are its delay and bitslip. */
  type FrameClock = (nat, nat, nat, nat) -> Word

  datatype Knob = Delay | Bitslip

  /** The word a trigger latches with one knob at value i, cut to the knob's width, and the other held. */
  function Shown(frame: FrameClock, what: Knob, held: nat, trigger: nat, afe: nat, i: nat): Word {
    match what
    case Delay => frame(trigger, afe, i % 512, held)
    case Bitslip => frame(trigger, afe, held, i % 16)
  }

  /** The words of a scan that begins at trigger t: word i belongs to tap i. */
  function Scan(frame: FrameClock, what: Knob, held: nat, t: nat, afe: nat, taps: nat): (s: seq<Word>)
    ensures |s| == taps
    ensures forall i :: 0 <= i < taps ==> s[i] == Shown(frame, what, held, t + i, afe, i)
  {
    seq(taps, i requires 0 <= i => Shown(frame, what, held, t + i, afe, i))
  }

  /** The first place of the target word, or the length if it does not occur. */
  function FirstTarget(s: seq<Word>): (k: nat)
    ensures k <= |s|
    ensures k < |s| ==> s[k] == TARGET
    ensures forall i :: 0 <= i < k ==> s[i] != TARGET
  {
    if s == [] || s[0] == TARGET then 0 else 1 + FirstTarget(s[1..])
  }

  lemma FirstTargetIs(s: seq<Word>, k: nat)
    requires k <= |s| && (k < |s| ==> s[k] == TARGET) && forall i :: 0 <= i < k ==> s[i] != TARGET
    ensures FirstTarget(s) == k
  {
  }

  /** The search of setBestBitslip. */
  method FindTarget(data: seq<Word>) returns (best: nat)
    ensures best == FirstTarget(data)
  {
    hide FirstTarget;
    best := 0;
    while best < |data| && data[best] != TARGET
      invariant best <= |data|
      invariant forall i :: 0 <= i < best ==> data[i] != TARGET
    {
      best := best + 1;
    }
    FirstTargetIs(data, best);
  }

  datatype Outcome<T> = Ok(value: T) | Failed

  /** How many triggers one AFE takes: a delay scan, a bitslip scan and a final look. */
  const PER_AFE: nat := DELAY_TAPS + BITSLIP_TAPS + 1

  /** What alignment leaves in AFE a's registers if its scans begin at trigger t: the middle of the longest
      stable stretch of delay taps, scanned at bitslip zero, and the first bitslip that shows the target word
      at that delay, or zero, the value the zeroing left there. */
  ghost predicate Aligned(frame: FrameClock, t: nat, a: nat, delay: nat, bitslip: nat) {
    var k := FirstTarget(Scan(frame, Bitslip, delay, t + DELAY_TAPS, a, BITSLIP_TAPS));
    && IsMiddle(Scan(frame, Delay, 0, t, a, DELAY_TAPS), delay)
    && bitslip == if k < BITSLIP_TAPS then k else 0
  }

  class FrontEnd {
    /** The DELAY fields, nine bits, and the BITSLIP fields, four bits. */
    var delay: seq<nat>
    var bitslip: seq<nat>
    /** The bits of frontendControl. */
    var vtc: nat
    var serdesReset: nat
    var delayctrlReset: nat
    var triggers: nat
    /** The frame-clock words the last trigger left in the spy buffers. */
    var latched: seq<Word>
    const frame: FrameClock
    /** DELAY_EN_VTC at every write of a delay or bitslip so far. */
    ghost var vtcAtWrites: seq<nat>
    /** Every value frontendControl has been given: DELAYCTRL_RESET, SERDES_RESET, DELAY_EN_VTC. */
    ghost var controls: seq<(nat, nat, nat)>

    ghost predicate Valid()
      reads this
    {
      && |delay| == |bitslip| == |latched| == AFES
      && (forall a :: 0 <= a < AFES ==> delay[a] < 512 && bitslip[a] < 16)
    }

    method SetDelay(afe: nat, value: nat) returns (written: nat)
      requires Valid() && afe < AFES
      modifies this`delay, this`vtcAtWrites
      ensures Valid() && written == value % 512
      ensures delay == old(delay)[afe := value % 512]
      ensures vtcAtWrites == old(vtcAtWrites) + [vtc]
    {
      delay := delay[afe := value % 512];
      vtcAtWrites := vtcAtWrites + [vtc];
      written := delay[afe];
    }

    method SetBitslip(afe: nat, value: nat) returns (written: nat)
      requires Valid() && afe < AFES
      modifies this`bitslip, this`vtcAtWrites
      ensures Valid() && written == value % 16
      ensures bitslip == old(bitslip)[afe := value % 16]
      ensures vtcAtWrites == old(vtcAtWrites) + [vtc]
    {
      bitslip := bitslip[afe := value % 16];
      vtcAtWrites := vtcAtWrites + [vtc];
      written := bitslip[afe];
    }

    method SetControl(delayctrlReset: nat, serdesReset: nat, vtc: nat)
      modifies this`delayctrlReset, this`serdesReset, this`vtc, this`controls
      ensures this.delayctrlReset == delayctrlReset && this.serdesReset == serdesReset && this.vtc == vtc
      ensures controls == old(controls) + [(delayctrlReset, serdesReset, vtc)]
    {
      this.delayctrlReset, this.serdesReset, this.vtc := delayctrlReset, serdesReset, vtc;
      controls := controls + [(delayctrlReset, serdesReset, vtc)];
    }

    /** doResetDelayCtrl. */
    method DoResetDelayCtrl()
      modifies this`delayctrlReset, this`serdesReset, this`vtc, this`controls
      ensures delayctrlReset == 0 && serdesReset == old(serdesReset) && vtc == old(vtc)
      ensures controls == old(controls) + [(1, serdesReset, vtc), (0, serdesReset, vtc)]
    {
      SetControl(1, serdesReset, vtc);
      SetControl(0, serdesReset, vtc);
    }

    /** doResetSerDesCtrl. */
    method DoResetSerDesCtrl()
      modifies this`delayctrlReset, this`serdesReset, this`vtc, this`controls
      ensures delayctrlReset == old(delayctrlReset) && serdesReset == 0 && vtc == old(vtc)
      ensures controls == old(controls) + [(delayctrlReset, 1, vtc), (delayctrlReset, 0, vtc)]
    {
      SetControl(delayctrlReset, 1, vtc);
      SetControl(delayctrlReset, 0, vtc);
    }

    /** Every AFE's word is latched with the knobs as they are. */
    method DoTrigger()
      requires Valid()
      modifies this`triggers, this`latched
      ensures Valid() && triggers == old(triggers) + 1
      ensures forall a :: 0 <= a < AFES ==> latched[a] == frame(old(triggers), a, delay[a], bitslip[a])
    {
      latched := [];
      for a := 0 to AFES
        invariant |latched| == a && triggers == old(triggers)
        invariant forall b :: 0 <= b < a ==> latched[b] == frame(triggers, b, delay[b], bitslip[b])
      {
        latched := latched + [frame(triggers, a, delay[a], bitslip[a])];
      }
      triggers := triggers + 1;
    }

    method GetFrameClock(afe: nat) returns (w: Word)
      requires Valid() && afe < AFES
      ensures w == latched[afe]
    {
      w := latched[afe];
    }

    /** The knob that is not scanned. */
    ghost function Held(what: Knob, afe: nat): nat
      requires Valid() && afe < AFES
      reads this
    {
      match what
      case Delay => bitslip[afe]
      case Bitslip => delay[afe]
    }

    /** Only the given knob of the given AFE may have moved. */
    twostate predicate OnlyTurned(what: Knob, afe: nat)
      reads this
    {
      match what
      case Delay => bitslip == old(bitslip) && OnlyAt(old(delay), delay, afe)
      case Bitslip => delay == old(delay) && OnlyAt(old(bitslip), bitslip, afe)
    }

    /** Setting one knob, triggering, and reading the word latched there. */
    method Visit(afe: nat, what: Knob, i: nat) returns (w: Word)
      requires Valid() && afe < AFES
      modifies this`delay, this`bitslip, this`triggers, this`latched, this`vtcAtWrites
      ensures Valid() && triggers == old(triggers) + 1 && OnlyTurned(what, afe)
      ensures w == Shown(frame, what, old(Held(what, afe)), old(triggers), afe, i)
      ensures match what case Delay => delay[afe] == i % 512 case Bitslip => bitslip[afe] == i % 16
      ensures vtcAtWrites == old(vtcAtWrites) + [vtc]
    {
      match what {
        case Delay => var _ := SetDelay(afe, i);
        case Bitslip => var _ := SetBitslip(afe, i);
      }
      DoTrigger();
      w := GetFrameClock(afe);
    }

    /** scanGeneric: every tap of one knob of one AFE in turn, triggering and reading after each. */
    method ScanGeneric(afe: nat, what: Knob, taps: nat) returns (data: array<Word>)
      requires Valid() && afe < AFES
      modifies this`delay, this`bitslip, this`triggers, this`latched, this`vtcAtWrites
      ensures fresh(data) && data[..] == Scan(frame, what, old(Held(what, afe)), old(triggers), afe, taps)
      ensures Valid() && triggers == old(triggers) + taps && OnlyTurned(what, afe)
      ensures Stamped(old(vtcAtWrites), vtcAtWrites, taps, vtc)
    {
      hide Shown;
      data := new Word[taps](_ => 0);
      for i := 0 to taps
        invariant Valid() && triggers == old(triggers) + i
        invariant Held(what, afe) == old(Held(what, afe)) && OnlyTurned(what, afe)
        invariant forall k :: 0 <= k < i ==> data[k] == Shown(frame, what, old(Held(what, afe)), old(triggers) + k, afe, k)
        invariant Stamped(old(vtcAtWrites), vtcAtWrites, i, vtc)
      {
        data[i] := Visit(afe, what, i);
      }
    }

    /** setBestDelay: the AFE's delay ends at the middle of the leftmost longest stable stretch of taps, cut to
        the register's width. */
    method SetBestDelay(afe: nat, taps: nat) returns (r: Outcome<nat>)
      requires Valid() && afe < AFES
      modifies this`delay, this`bitslip, this`triggers, this`latched, this`vtcAtWrites
      ensures Valid() && triggers == old(triggers) + taps && OnlyTurned(Delay, afe)
      ensures r.Failed? <==> taps == 0
      ensures r.Ok? ==> r.value == delay[afe]
      ensures taps > 0 ==>
                exists m: nat :: IsMiddle(Scan(frame, Delay, old(bitslip[afe]), old(triggers), afe, taps), m) && delay[afe] == m % 512
      ensures Stamped(old(vtcAtWrites), vtcAtWrites, if taps == 0 then 0 else taps + 1, vtc)
    {
      hide Scan;
      var data := ScanGeneric(afe, Delay, taps);
      var delays := LongestIdenticalSubsequenceIndices(data[..]);
      if delays.None? {
        return Failed;
      }
      var (first, last) := delays.value;
      FloatMiddleIsMiddle(first, last);
      var best := FloatMiddle(first, last);
      assert IsMiddle(data[..], best);
      var written := SetDelay(afe, best);
      r := Ok(written);
    }

    /** setBestBitslip: the first tap that shows the target word, or the value found before the scan; then one
        more look. */
    method SetBestBitslip(afe: nat, taps: nat) returns (value: Word, matched: bool)
      requires Valid() && afe < AFES
      modifies this`delay, this`bitslip, this`triggers, this`latched, this`vtcAtWrites
      ensures Valid() && triggers == old(triggers) + taps + 1 && OnlyTurned(Bitslip, afe)
      ensures var k := FirstTarget(Scan(frame, Bitslip, delay[afe], old(triggers), afe, taps));
        && matched == (k < taps)
        && bitslip[afe] == if k < taps then k % 16 else old(bitslip[afe])
      ensures value == frame(old(triggers) + taps, afe, delay[afe], bitslip[afe])
      ensures Stamped(old(vtcAtWrites), vtcAtWrites, taps + 1, vtc)
    {
      hide FirstTarget, Scan;
      var initialBitslip := bitslip[afe];
      var data := ScanGeneric(afe, Bitslip, taps);
      var best := FindTarget(data[..]);
      matched := best < data.Length;
      var finalBitslip := initialBitslip;
      if matched {
        finalBitslip := best;
      }
      var _ := SetBitslip(afe, finalBitslip);
      DoTrigger();
      value := GetFrameClock(afe);
    }

    method ResetDelayCtrlValues()
      requires Valid()
      modifies this`delay, this`bitslip, this`vtcAtWrites
      ensures Valid()
      ensures forall a :: 0 <= a < AFES ==> delay[a] == 0 && bitslip[a] == 0
      ensures Stamped(old(vtcAtWrites), vtcAtWrites, 2 * AFES, vtc)
    {
      for afe := 0 to AFES
        invariant Valid()
        invariant forall a :: 0 <= a < afe ==> delay[a] == 0 && bitslip[a] == 0
        invariant Stamped(old(vtcAtWrites), vtcAtWrites, 2 * afe, vtc)
      {
        var _ := SetBitslip(afe, 0);
        var _ := SetDelay(afe, 0);
      }
    }

    /** One turn of alignAFE's loop. */
    method AlignBlock(afe: nat)
      requires Valid() && afe < AFES && bitslip[afe] == 0
      modifies this`delay, this`bitslip, this`triggers, this`latched, this`vtcAtWrites
      ensures Valid() && triggers == old(triggers) + PER_AFE
      ensures Aligned(frame, old(triggers), afe, delay[afe], bitslip[afe])
      ensures OnlyAt(old(delay), delay, afe) && OnlyAt(old(bitslip), bitslip, afe)
      ensures Stamped(old(vtcAtWrites), vtcAtWrites, PER_AFE + 1, vtc)
    {
      hide IsMiddle, Scan, FirstTarget;
      ghost var scan := Scan(frame, Delay, 0, triggers, afe, DELAY_TAPS);
      var _ := SetBestDelay(afe, DELAY_TAPS);
      ghost var m: nat :| IsMiddle(scan, m) && delay[afe] == m % 512;
      MiddleInside(scan, m);
      var _, _ := SetBestBitslip(afe, BITSLIP_TAPS);
    }

    /** alignAFE: it fails on no frame clock. */
    method AlignAFE() returns (delays: seq<nat>, bitslips: seq<nat>)
      requires Valid()
      modifies this
      ensures Valid() && triggers == old(triggers) + AFES * PER_AFE
      ensures delays == delay && bitslips == bitslip
      ensures forall a :: 0 <= a < AFES ==> Aligned(frame, old(triggers) + a * PER_AFE, a, delay[a], bitslip[a])
      ensures vtc == 1
      ensures controls == old(controls) + [
                (1, old(serdesReset), old(vtc)), (0, old(serdesReset), old(vtc)),
                (0, 1, old(vtc)), (0, 0, old(vtc)), (0, 0, 0), (0, 0, 1)]
      ensures |vtcAtWrites| == |old(vtcAtWrites)| + 2 * AFES + AFES * (PER_AFE + 1)
      ensures forall i :: |old(vtcAtWrites)| + 2 * AFES <= i < |vtcAtWrites| ==> vtcAtWrites[i] == 0
    {
      hide Aligned;
      ghost var r, v := serdesReset, vtc;
      ResetDelayCtrlValues();
      DoResetDelayCtrl();
      DoResetSerDesCtrl();
      SetControl(delayctrlReset, serdesReset, 0);
      ghost var begun := vtcAtWrites;
      for afe := 0 to AFES
        invariant Valid() && triggers == old(triggers) + afe * PER_AFE
        invariant vtc == 0 && serdesReset == 0 && delayctrlReset == 0
        invariant controls == old(controls) + [(1, r, v), (0, r, v), (0, 1, v), (0, 0, v), (0, 0, 0)]
        invariant forall a :: 0 <= a < afe ==> Aligned(frame, old(triggers) + a * PER_AFE, a, delay[a], bitslip[a])
        invariant forall a :: afe <= a < AFES ==> bitslip[a] == 0
        invariant Stamped(begun, vtcAtWrites, afe * (PER_AFE + 1), 0)
      {
        AlignBlock(afe);
      }
      delays, bitslips := [], [];
      for afe := 0 to AFES
        invariant delays == delay[..afe] && bitslips == bitslip[..afe]
      {
        delays := delays + [delay[afe]];
        bitslips := bitslips + [bitslip[afe]];
      }
      SetControl(delayctrlReset, serdesReset, 1);
    }

    /** The tap scan of align_one_afe: one pass, closing a run whenever the word changes. */
    method ScanTaps(afe: nat, taps: nat) returns (mid: nat)
      requires Valid() && afe < AFES && taps > 0
      modifies this`delay, this`bitslip, this`triggers, this`latched, this`vtcAtWrites
      ensures Valid() && triggers == old(triggers) + taps
      ensures IsMiddle(Scan(frame, Delay, old(bitslip[afe]), old(triggers), afe, taps), mid)
      ensures bitslip == old(bitslip) && delay == old(delay)[afe := mid % 512]
    {
      hide Scanned, Longest, IsRun, Scan, Shown, Valid;
      Sizes();
      ghost var s := Scan(frame, Delay, bitslip[afe], triggers, afe, taps);
      var base := Visit(afe, Delay, 0);
      ScanStarts(s);
      var longest: (nat, nat, nat, Word) := (1, 0, 0, base);
      var currWord := base;
      var currLen, start := 1, 0;
      for i := 1 to taps
        invariant Valid() && triggers == old(triggers) + i && OnlyTurned(Delay, afe)
        invariant 0 <= start < i && currLen == i - start && currWord == s[i - 1]
        invariant longest.2 == longest.1 + longest.0 - 1
        invariant Scanned(s, i, longest.1, longest.0, start)
      {
        var val := Visit(afe, Delay, i);
        assert val == s[i];
        if val == currWord {
          ScanExtends(s, i, longest.1, longest.0, start);
          currLen := currLen + 1;
        } else {
          ScanCloses(s, i, longest.1, longest.0, start);
          var end := i - 1;
          if currLen > longest.0 {
            longest := (currLen, start, end, currWord);
          }
          currWord := val;
          currLen, start := 1, i;
        }
      }
      ScanEnds(s, longest.1, longest.0, start);
      var end := taps - 1;
      if currLen > longest.0 {
        longest := (currLen, start, end, currWord);
      }
      var (_, a, b, _) := longest;
      assert Longest(s, a, b);
      LongestInside(s, a, b);
      mid := a + (b - a) / 2;
      Sizes();
      var _ := SetDelay(afe, mid);
    }

    lemma Sizes()
      requires Valid()
      ensures |delay| == |bitslip| == |latched| == AFES
    {
    }

    /** The bitslip hunt of align_one_afe: it stops at the first match and restores nothing. */
    method HuntBitslip(afe: nat) returns (found: Option<nat>)
      requires Valid() && afe < AFES
      modifies this`delay, this`bitslip, this`triggers, this`latched, this`vtcAtWrites
      ensures Valid() && delay == old(delay)
      ensures var k := FirstTarget(Scan(frame, Bitslip, delay[afe], old(triggers), afe, BITSLIP_TAPS));
        && found == (if k < BITSLIP_TAPS then Some(k) else None)
        && bitslip == old(bitslip)[afe := if k < BITSLIP_TAPS then k else BITSLIP_TAPS - 1]
    {
      hide FirstTarget, Scan, Shown;
      found := None;
      ghost var u := Scan(frame, Bitslip, delay[afe], triggers, afe, BITSLIP_TAPS);
      for j := 0 to BITSLIP_TAPS
        invariant Valid() && triggers == old(triggers) + j && found.None? && delay == old(delay)
        invariant forall i :: 0 <= i < j ==> u[i] != TARGET
        invariant bitslip == if j == 0 then old(bitslip) else old(bitslip)[afe := j - 1]
      {
        var val := Visit(afe, Bitslip, j);
        assert val == u[j];
        if val == TARGET {
          FirstTargetIs(u, j);
          found := Some(j);
          return;
        }
      }
      FirstTargetIs(u, BITSLIP_TAPS);
    }

    /** align_one_afe, for any number of taps. */
    method AlignOneAfe(afe: nat, taps: nat) returns (mid: nat, found: Option<nat>)
      requires Valid() && afe < AFES && taps > 0
      modifies this
      ensures Valid() && vtc == 0
      ensures controls == old(controls) + [(1, 0, 0), (0, 1, 0), (0, 0, 0), (0, 0, 1), (0, 0, 0)]
      ensures IsMiddle(Scan(frame, Delay, old(bitslip[afe]), old(triggers), afe, taps), mid)
      ensures delay == old(delay)[afe := mid % 512]
      ensures var k := FirstTarget(Scan(frame, Bitslip, mid % 512, old(triggers) + taps, afe, BITSLIP_TAPS));
        && found == (if k < BITSLIP_TAPS then Some(k) else None)
        && bitslip == old(bitslip)[afe := if k < BITSLIP_TAPS then k else BITSLIP_TAPS - 1]
    {
      hide IsMiddle, FirstTarget, Scan;
      SetControl(1, 0, 0);
      SetControl(0, 1, 0);
      SetControl(0, 0, 0);
      mid := ScanTaps(afe, taps);
      SetControl(0, 0, 1);
      SetControl(0, 0, 0);
      found := HuntBitslip(afe);
    }
  }

  /** The second list differs from the first at most at index a. */
  predicate OnlyAt(before: seq<nat>, after: seq<nat>, a: nat) {
    |before| == |after| && forall i :: 0 <= i < |before| && i != a ==> after[i] == before[i]
  }

  /** n more writes, all made with the same VTC setting. */
  predicate Stamped(before: seq<nat>, after: seq<nat>, n: nat, vtc: nat) {
    && |after| == |before| + n
    && after[..|before|] == before
    && forall i :: |before| <= i < |after| ==> after[i] == vtc
  }

  /** The word latched at delay tap i of a scan from trigger t. */
  function AtDelay(frame: FrameClock, t: nat, a: nat, i: nat): Word { frame(t + i, a, i, 0) }

  /** The word latched at bitslip k of the scan that follows, at the chosen delay. */
  function AtBitslip(frame: FrameClock, t: nat, a: nat, delay: nat, k: nat): Word { frame(t + 512 + k, a, delay, k) }

  predicate SameWords(frame: FrameClock, t: nat, a: nat, p: nat, q: nat) {
    p <= q && forall i :: p <= i <= q ==> AtDelay(frame, t, a, i) == AtDelay(frame, t, a, p)
  }

  /** An aligned AFE in full: its delay is the middle of the leftmost longest stretch of the 512 taps over which the
      word did not change, and its bitslip the first of 16 to show 00FF00FF there, or zero if none did. */
  lemma AlignedMeaning(frame: FrameClock, t: nat, a: nat, delay: nat, bitslip: nat) returns (first: nat, last: nat)
    requires Aligned(frame, t, a, delay, bitslip)
    ensures last < 512 && SameWords(frame, t, a, first, last) && delay == first + (last - first) / 2
    ensures forall p: nat, q: nat :: q < 512 && SameWords(frame, t, a, p, q) ==>
              q - p < last - first || (q - p == last - first && first <= p)
    ensures forall k: nat :: k < bitslip ==> AtBitslip(frame, t, a, delay, k) != 0x00FF00FF
    ensures bitslip < 16
    ensures AtBitslip(frame, t, a, delay, bitslip) != 0x00FF00FF ==>
              bitslip == 0 && forall k: nat :: k < 16 ==> AtBitslip(frame, t, a, delay, k) != 0x00FF00FF
  {
    hide FirstTarget, Longest;
    var s := Scan(frame, Delay, 0, t, a, DELAY_TAPS);
    var a0: nat, b0: nat :| Longest(s, a0, b0) && delay == a0 + (b0 - a0) / 2;
    first, last := a0, b0;
    LongestSays(frame, t, a, first, last);
    ScanOfBitslips(frame, t, a, delay);
    hide Scan;
  }

  lemma LongestSays(frame: FrameClock, t: nat, a: nat, first: nat, last: nat)
    requires Longest(Scan(frame, Delay, 0, t, a, DELAY_TAPS), first, last)
    ensures last < 512 && SameWords(frame, t, a, first, last)
    ensures forall p: nat, q: nat :: q < 512 && SameWords(frame, t, a, p, q) ==>
              q - p < last - first || (q - p == last - first && first <= p)
  {
    var s := Scan(frame, Delay, 0, t, a, DELAY_TAPS);
    assert forall i :: 0 <= i < 512 ==> s[i] == AtDelay(frame, t, a, i);
    forall p: nat, q: nat | q < 512 && SameWords(frame, t, a, p, q)
      ensures q - p < last - first || (q - p == last - first && first <= p)
    {
      assert IsRun(s, p, q);
    }
  }

  lemma ScanOfBitslips(frame: FrameClock, t: nat, a: nat, delay: nat)
    ensures var s := Scan(frame, Bitslip, delay, t + DELAY_TAPS, a, BITSLIP_TAPS);
            |s| == 16 && forall k: nat :: k < 16 ==> s[k] == AtBitslip(frame, t, a, delay, k)
  {
  }

  /** Where taps show the same words, the driver and the client choose the same tap; and where bitslips do at
      that tap, the same bitslip exactly when one of them shows the target word: otherwise the client leaves
      the last one it tried. The client scans at the bitslip it finds, held. */
  lemma DriverAndClientAgree(frame: FrameClock, t: nat, delay: nat, bitslip: nat, a: nat,
                             client: FrameClock, u: nat, held: nat, clientDelay: nat, clientBitslip: nat)
    requires Aligned(frame, t, a, delay, bitslip)
    requires IsMiddle(Scan(client, Delay, held, u, a, DELAY_TAPS), clientDelay)
    requires var k := FirstTarget(Scan(client, Bitslip, clientDelay % 512, u + DELAY_TAPS, a, BITSLIP_TAPS));
             clientBitslip == if k < BITSLIP_TAPS then k else BITSLIP_TAPS - 1
    requires Scan(frame, Delay, 0, t, a, DELAY_TAPS) == Scan(client, Delay, held, u, a, DELAY_TAPS)
    requires Scan(frame, Bitslip, delay, t + DELAY_TAPS, a, BITSLIP_TAPS)
          == Scan(client, Bitslip, delay, u + DELAY_TAPS, a, BITSLIP_TAPS)
    ensures delay == clientDelay < 512
    ensures bitslip == clientBitslip <==> TARGET in Scan(frame, Bitslip, delay, t + DELAY_TAPS, a, BITSLIP_TAPS)
  {
    hide Scan, IsMiddle;
    MiddleIsUnique(Scan(client, Delay, held, u, a, DELAY_TAPS), delay, clientDelay);
    MiddleInside(Scan(client, Delay, held, u, a, DELAY_TAPS), clientDelay);
  }

  /** The widths used here are those of the register dictionary, for all five AFEs: nine bits of delay, four of bitslip, and
      a ninth buffer, for the frame-clock word, beside those of the eight channels. */
  lemma KnobsAsMapped(a: nat)
    requires a < AFES
    ensures FpgaRegDict.Known(FpgaRegDict.FrontendDelay(a)) && FpgaRegDict.Known(FpgaRegDict.FrontendBitslip(a))
    ensures FpgaRegDict.Known(FpgaRegDict.SpyBuffer(a, 8))
    ensures FpgaRegDict.Find(FpgaRegDict.FieldsOf(FpgaRegDict.FrontendDelay(a)), FpgaRegDict.DELAY)
         == Some(FpgaRegDict.Range(0, 8))
    ensures FpgaRegDict.Find(FpgaRegDict.FieldsOf(FpgaRegDict.FrontendBitslip(a)), FpgaRegDict.BITSLIP)
         == Some(FpgaRegDict.Range(0, 3))
    ensures Pow2(9) == DELAY_TAPS && Pow2(4) == BITSLIP_TAPS
  {
  }

  /** A link whose words depend on the taps alone, not on when they are looked at. */
  ghost predicate Steady(frame: FrameClock, still: (nat, nat, nat) -> Word) {
    forall k, a, d, b :: frame(k, a, d, b) == still(a, d, b)
  }

  /** The words of a scan of a steady link. */
  function StillScan(still: (nat, nat, nat) -> Word, what: Knob, held: nat, a: nat, taps: nat): (s: seq<Word>)
    requires taps <= if what.Delay? then 512 else 16
    ensures |s| == taps
    ensures forall i :: 0 <= i < taps ==> s[i] == if what.Delay? then still(a, i, held) else still(a, held, i)
  {
    seq(taps, i requires 0 <= i => if what.Delay? then still(a, i, held) else still(a, held, i))
  }

  lemma ScanOfSteadyLink(frame: FrameClock, still: (nat, nat, nat) -> Word, what: Knob, held: nat, t: nat, a: nat, taps: nat)
    requires Steady(frame, still) && taps <= if what.Delay? then 512 else 16
    ensures Scan(frame, what, held, t, a, taps) == StillScan(still, what, held, a, taps)
  {
  }

  lemma TargetFoundIff(s: seq<Word>)
    ensures FirstTarget(s) < |s| <==> TARGET in s
  {
    hide FirstTarget;
  }

  /** What calibration is for: on a steady link the aligned AFE shows the target word at every later trigger if
      and only if some bitslip shows it at the chosen tap, and the tap lies in the middle of the longest run
      of taps that show one word. */
  lemma SteadyLinkCalibrated(frame: FrameClock, still: (nat, nat, nat) -> Word, t: nat, a: nat, delay: nat, bitslip: nat, k: nat)
    requires Steady(frame, still) && Aligned(frame, t, a, delay, bitslip)
    ensures frame(k, a, delay, bitslip) == TARGET <==> TARGET in StillScan(still, Bitslip, delay, a, BITSLIP_TAPS)
    ensures IsMiddle(StillScan(still, Delay, 0, a, DELAY_TAPS), delay)
  {
    hide FirstTarget, Scan, StillScan, IsMiddle;
    ScanOfSteadyLink(frame, still, Delay, 0, t, a, DELAY_TAPS);
    ScanOfSteadyLink(frame, still, Bitslip, delay, t + DELAY_TAPS, a, BITSLIP_TAPS);
    var s := StillScan(still, Bitslip, delay, a, BITSLIP_TAPS);
    TargetFoundIff(s);
    assert s[bitslip] == still(a, delay, bitslip) == frame(k, a, delay, bitslip);
  }

  /** On a steady link driver and client agree outright if the client starts from bitslip zero. */
  lemma AgreeOnSteadyLink(frame: FrameClock, still: (nat, nat, nat) -> Word, t: nat, delay: nat, bitslip: nat, a: nat,
                          u: nat, clientDelay: nat, clientBitslip: nat)
    requires Steady(frame, still) && Aligned(frame, t, a, delay, bitslip)
    requires IsMiddle(Scan(frame, Delay, 0, u, a, DELAY_TAPS), clientDelay)
    requires var k := FirstTarget(Scan(frame, Bitslip, clientDelay % 512, u + DELAY_TAPS, a, BITSLIP_TAPS));
             clientBitslip == if k < BITSLIP_TAPS then k else BITSLIP_TAPS - 1
    ensures delay == clientDelay
    ensures bitslip == clientBitslip <==> TARGET in StillScan(still, Bitslip, delay, a, BITSLIP_TAPS)
  {
    hide Scan, StillScan, IsMiddle, FirstTarget, Aligned, Steady;
    ScanOfSteadyLink(frame, still, Delay, 0, t, a, DELAY_TAPS);
    ScanOfSteadyLink(frame, still, Delay, 0, u, a, DELAY_TAPS);
    ScanOfSteadyLink(frame, still, Bitslip, delay, t + DELAY_TAPS, a, BITSLIP_TAPS);
    ScanOfSteadyLink(frame, still, Bitslip, delay, u + DELAY_TAPS, a, BITSLIP_TAPS);
    DriverAndClientAgree(frame, t, delay, bitslip, a, frame, u, 0, clientDelay, clientBitslip);
  }
}
