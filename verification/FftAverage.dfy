/** The rolling FFT average of client/osc.py: a ring of power spectra and a running sum, against the mean
    recomputed from scratch. A spectrum is an opaque vector of reals. */
module FftAverage {

  import opened Arithmetic
  import opened Wrappers

  type Spectrum = seq<real>

  datatype Emission = Emission(mean: Spectrum, navg: nat)

  /** What reaches the worker: a frame, as the spectra of its channels, a channel switch or a reset. */
  datatype Event = Frame(spectra: seq<Spectrum>) | SwitchTo(index: int) | Reset

  // ---- Reference: the whole history since the last clear ----

  datatype View = View(channel: int, history: seq<Spectrum>)

  predicate Taken(v: View, spectra: seq<Spectrum>) { 0 <= v.channel < |spectra| }

  /** What an event does to the history. */
  function Next(v: View, e: Event, channels: nat): View {
    match e
    case Frame(spectra) => if Taken(v, spectra) then v.(history := v.history + [spectra[v.channel]]) else v
    case SwitchTo(i) => if 0 <= i < channels && i != v.channel then View(i, []) else v
    case Reset => v.(history := [])
  }

  /** The last spectra the average may cover. */
  function Window(history: seq<Spectrum>, avg: nat): (w: seq<Spectrum>)
    ensures |w| == Min(|history|, avg)
  {
    history[|history| - Min(|history|, avg)..]
  }

  /** The sum of one bin. */
  function Total(spectra: seq<Spectrum>, bin: nat): real
    requires forall s :: s in spectra ==> bin < |s|
  {
    if spectra == [] then 0.0 else Total(spectra[..|spectra| - 1], bin) + spectra[|spectra| - 1][bin]
  }

  predicate AllSized(spectra: seq<Spectrum>, bins: nat) { forall i :: 0 <= i < |spectra| ==> |spectra[i]| == bins }

  /** The mean of the window, recomputed. */
  predicate IsMean(mean: Spectrum, w: seq<Spectrum>, bins: nat)
    requires AllSized(w, bins) && w != []
  {
    |mean| == bins && forall b :: 0 <= b < bins ==> mean[b] == Total(w, b) / (|w| as real)
  }

  lemma {:induction false} TotalDropsFirst(w: seq<Spectrum>, bin: nat)
    requires w != [] && forall s :: s in w ==> bin < |s|
    ensures Total(w, bin) == w[0][bin] + Total(w[1..], bin)
  {
    if |w| > 1 {
      var n := |w| - 1;
      TotalDropsFirst(w[..n], bin);
      assert w[..n][1..] == w[1..][..n - 1];
    }
  }

  lemma TotalAppends(w: seq<Spectrum>, s: Spectrum, bin: nat)
    requires (forall x :: x in w ==> bin < |x|) && bin < |s|
    ensures Total(w + [s], bin) == Total(w, bin) + s[bin]
  {
    assert (w + [s])[..|w|] == w;
  }

  // ---- Slots of the ring ----

  lemma NoMultipleBetween(a: nat, d: int)
    requires a > 0
    ensures !(0 < d * a < a)
  {
  }

  lemma SameSlot(j: nat, avg: nat)
    requires avg > 0
    ensures (j + avg) % avg == j % avg
  {
    var q := j / avg;
    assert j == q * avg + j % avg;
    Distribute(q, 1, avg);
    RemainderIs(j + avg, q + 1, j % avg, avg);
  }

  lemma SlotsDiffer(j: nat, k: nat, avg: nat)
    requires avg > 0 && j < k < j + avg
    ensures j % avg != k % avg
  {
    if j % avg == k % avg {
      var p, q := j / avg, k / avg;
      assert j == p * avg + j % avg && k == q * avg + k % avg;
      DistributeMinus(q, p, avg);
      NoMultipleBetween(avg, q - p);
    }
  }

  function Plus(a: Spectrum, b: Spectrum): (r: Spectrum)
    requires |a| == |b|
    ensures |r| == |a| && forall i :: 0 <= i < |a| ==> r[i] == a[i] + b[i]
  {
    seq(|a|, i requires 0 <= i < |a| => a[i] + b[i])
  }

  function Minus(a: Spectrum, b: Spectrum): (r: Spectrum)
    requires |a| == |b|
    ensures |r| == |a| && forall i :: 0 <= i < |a| ==> r[i] == a[i] - b[i]
  {
    seq(|a|, i requires 0 <= i < |a| => a[i] - b[i])
  }

  function Over(a: Spectrum, n: nat): (r: Spectrum)
    requires n > 0
    ensures |r| == |a| && forall i :: 0 <= i < |a| ==> r[i] == a[i] / (n as real)
  {
    seq(|a|, i requires 0 <= i < |a| => a[i] / (n as real))
  }

  function Zeros(n: nat): (r: Spectrum)
    ensures |r| == n && forall i :: 0 <= i < n ==> r[i] == 0.0
  {
    seq(n, _ => 0.0)
  }

  ghost predicate SumIs(sum: Spectrum, w: seq<Spectrum>, bins: nat) {
    |sum| == bins && AllSized(w, bins) && forall b :: 0 <= b < bins ==> sum[b] == Total(w, b)
  }

  lemma SumOfNothing(bins: nat)
    ensures SumIs(Zeros(bins), [], bins)
  {
  }

  lemma SumGrows(sum: Spectrum, w: seq<Spectrum>, s: Spectrum, bins: nat)
    requires SumIs(sum, w, bins) && |s| == bins
    ensures SumIs(Plus(sum, s), w + [s], bins)
  {
    forall b: nat | b < bins
      ensures Plus(sum, s)[b] == Total(w + [s], b)
    {
      TotalAppends(w, s, b);
    }
  }

  lemma SumShrinks(sum: Spectrum, w: seq<Spectrum>, bins: nat)
    requires SumIs(sum, w, bins) && w != []
    ensures SumIs(Minus(sum, w[0]), w[1..], bins)
  {
    forall b: nat | b < bins
      ensures Minus(sum, w[0])[b] == Total(w[1..], b)
    {
      TotalDropsFirst(w, b);
    }
  }

  /** The window after one more spectrum: the oldest goes only once the ring is full. */
  lemma WindowMoves(history: seq<Spectrum>, s: Spectrum, avg: nat)
    requires avg > 0
    ensures var w := Window(history, avg);
            Window(history + [s], avg) == (if |history| >= avg then w[1..] else w) + [s]
    ensures |history| >= avg ==> Window(history, avg)[0] == history[|history| - avg]
  {
  }

  // ---- What a run of events amounts to, told from the events alone ----

  /** A switch to a channel there is. */
  predicate Selects(e: Event, channels: nat) { e.SwitchTo? && 0 <= e.index < channels }

  /** The channel in force before event i: the last one selected, or the one at the start. */
  function ChannelAt(start: int, events: seq<Event>, channels: nat, i: nat): int
    requires i <= |events|
  {
    if i == 0 then start
    else if Selects(events[i - 1], channels) then events[i - 1].index
    else ChannelAt(start, events, channels, i - 1)
  }

  /** Event k makes the worker forget: a reset, or a switch to a channel other than the one in force. */
  predicate Forgets(start: int, events: seq<Event>, channels: nat, k: nat)
    requires k < |events|
  {
    events[k].Reset? || (Selects(events[k], channels) && events[k].index != ChannelAt(start, events, channels, k))
  }

  /** Event k is a frame that has the channel in force. */
  predicate Heard(start: int, events: seq<Event>, channels: nat, k: nat)
    requires k < |events|
  {
    events[k].Frame? && 0 <= ChannelAt(start, events, channels, k) < |events[k].spectra|
  }

  /** Before event i, frame k has been heard and not been forgotten since. */
  predicate Remembered(start: int, events: seq<Event>, channels: nat, i: nat, k: nat)
    requires i <= |events|
  {
    k < i && Heard(start, events, channels, k) && forall j :: k < j < i ==> !Forgets(start, events, channels, j)
  }

  /** All those frames, in order. */
  function Frames(start: int, events: seq<Event>, channels: nat, i: nat): (ks: seq<nat>)
    requires i <= |events|
    ensures forall x :: 0 <= x < |ks| ==> ks[x] < i
    ensures forall x, y :: 0 <= x < y < |ks| ==> ks[x] < ks[y]
    ensures forall k :: k in ks <==> Remembered(start, events, channels, i, k)
  {
    if i == 0 then []
    else
      var before := Frames(start, events, channels, i - 1);
      if Forgets(start, events, channels, i - 1) then [] else if Heard(start, events, channels, i - 1) then before + [i - 1] else before
  }

  /** Their spectra of the channel in force, after those taken before the first event if nothing was forgotten. */
  function Spectra(prior: seq<Spectrum>, start: int, events: seq<Event>, channels: nat, i: nat): (h: seq<Spectrum>)
    requires i <= |events|
  {
    var ks := Frames(start, events, channels, i);
    (if exists j :: 0 <= j < i && Forgets(start, events, channels, j) then [] else prior)
    + seq(|ks|, x requires 0 <= x < |ks| =>
        assert ks[x] in ks; events[ks[x]].spectra[ChannelAt(start, events, channels, ks[x])])
  }

  /** All remembered frames are of the channel in force now. */
  lemma {:induction false} OneChannel(start: int, events: seq<Event>, channels: nat, i: nat, k: nat)
    requires i <= |events| && Remembered(start, events, channels, i, k)
    ensures ChannelAt(start, events, channels, k) == ChannelAt(start, events, channels, i)
  {
    if k < i - 1 {
      assert !Forgets(start, events, channels, i - 1);
      OneChannel(start, events, channels, i - 1, k);
    } else {
      assert Heard(start, events, channels, k) && !Selects(events[k], channels);
    }
  }

  /** The recursive reference says the same. */
  lemma {:induction false} AfterIs(v: View, events: seq<Event>, channels: nat, i: nat)
    requires i <= |events|
    ensures After(v, events[..i], channels)
         == View(ChannelAt(v.channel, events, channels, i), Spectra(v.history, v.channel, events, channels, i))
  {
    if i > 0 {
      AfterIs(v, events, channels, i - 1);
      AfterNext(v, events, i - 1, channels);
      SpectraStep(v.history, v.channel, events, channels, i - 1);
      hide Spectra, After;
    }
  }

  lemma SpectraStep(prior: seq<Spectrum>, start: int, events: seq<Event>, channels: nat, i: nat)
    requires i < |events|
    ensures var h := Spectra(prior, start, events, channels, i);
            Spectra(prior, start, events, channels, i + 1)
            == if Forgets(start, events, channels, i) then []
               else if Heard(start, events, channels, i) then h + [events[i].spectra[ChannelAt(start, events, channels, i)]]
               else h
  {
    hide Forgets, Heard, ChannelAt, Remembered;
  }

  // ---- The worker ----

  class Worker {
    var enabled: bool
    var channelIndex: int
    const channels: nat
    const avgCount: nat
    const emitEvery: nat
    const bins: nat
    /** _fft_ring, _fft_sum and _fft_frames. */
    const ring: array<Spectrum>
    var sum: Spectrum
    var frames: nat
    /** The spectra taken since the last clear. */
    ghost var history: seq<Spectrum>

    ghost predicate Valid()
      reads this, ring
    {
      && avgCount > 0 && emitEvery > 0 && ring.Length == avgCount
      && frames == |history| && AllSized(history, bins)
      && SumIs(sum, Window(history, avgCount), bins)
      && (forall j :: 0 <= j < |history| && |history| - avgCount <= j ==> ring[j % avgCount] == history[j])
    }

    ghost function State(): View
      reads this
    {
      View(channelIndex, history)
    }

    /** __init__ and _setup_fft: counts are at least one, and the FFT is switched off unless there are
        samples and a window as long as the trace. */
    constructor (enabled: bool, channels: nat, channelIndex: int, avgWaves: int, emitEvery: int, samples: int, window: Option<nat>)
      ensures Valid() && State() == View(channelIndex, []) && fresh(ring)
      ensures this.channels == channels
      ensures this.enabled <==> enabled && samples > 0 && window.Some? && window.value == samples
      ensures avgCount == (if avgWaves < 1 then 1 else avgWaves) && this.emitEvery == (if emitEvery < 1 then 1 else emitEvery)
      ensures samples > 0 ==> bins == samples / 2 + 1
    {
      this.enabled := enabled && samples > 0 && window.Some? && window.value == samples;
      this.channels := channels;
      this.channelIndex := channelIndex;
      var avg := if avgWaves < 1 then 1 else avgWaves;
      var n := if samples > 0 then samples / 2 + 1 else 0;
      avgCount := avg;
      this.emitEvery := if emitEvery < 1 then 1 else emitEvery;
      bins := n;
      ring := new Spectrum[avg](_ => Zeros(n));
      sum := Zeros(n);
      frames := 0;
      history := [];
      SumOfNothing(n);
    }

    /** Zeroing the ring, the sum and the frame count. */
    method Clear()
      requires Valid()
      modifies this`sum, this`frames, this`history, ring
      ensures Valid() && history == []
    {
      forall i | 0 <= i < ring.Length {
        ring[i] := Zeros(bins);
      }
      sum := Zeros(bins);
      frames := 0;
      history := [];
      SumOfNothing(bins);
    }

    method SetFftChannelIndex(index: int)
      requires Valid()
      modifies this`channelIndex, this`sum, this`frames, this`history, ring
      ensures Valid()
      ensures State() == if enabled then Next(old(State()), SwitchTo(index), channels) else old(State())
      ensures var switched := enabled && 0 <= index < channels && index != old(channelIndex);
        && channelIndex == (if switched then index else old(channelIndex))
        && history == if switched then [] else old(history)
    {
      if !enabled {
        return;
      }
      if index < 0 || index >= channels {
        return;
      }
      if index == channelIndex {
        return;
      }
      channelIndex := index;
      Clear();
    }

    method ResetFftAverage()
      requires Valid()
      modifies this`sum, this`frames, this`history, ring
      ensures Valid()
      ensures State() == if enabled then Next(old(State()), Reset, channels) else old(State())
      ensures history == (if enabled then [] else old(history))
    {
      if !enabled {
        return;
      }
      Clear();
    }

    /** The bookkeeping of _update_fft once the power spectrum is known. */
    method Accumulate(power: Spectrum)
      requires Valid() && |power| == bins
      modifies this`sum, this`frames, this`history, ring
      ensures Valid() && history == old(history) + [power] && frames == old(frames) + 1
    {
      hide Window, SumIs;
      WindowMoves(history, power, avgCount);
      ghost var w := Window(history, avgCount);
      RingKeeps();
      var slot := frames % avgCount;
      SumSize(sum, w, bins);
      if frames >= avgCount {
        SameSlot(frames - avgCount, avgCount);
        SumShrinks(sum, w, bins);
        sum := Minus(sum, ring[slot]);
        w := w[1..];
      }
      ring[slot] := power;
      SumGrows(sum, w, power, bins);
      sum := Plus(sum, power);
      frames := frames + 1;
      history := history + [power];
    }

    /** Writing the next slot disturbs none of the slots the new window needs. */
    lemma RingKeeps()
      requires avgCount > 0
      ensures forall j :: 0 <= j < frames && frames - avgCount < j ==> j % avgCount != frames % avgCount
    {
      forall j | 0 <= j < frames && frames - avgCount < j
        ensures j % avgCount != frames % avgCount
      {
        SlotsDiffer(j, frames, avgCount);
      }
    }

    /** _update_fft: an emission on every emitEvery-th spectrum since the last clear, the mean of
        exactly the last navg of them. */
    method UpdateFft(spectra: seq<Spectrum>) returns (out: Option<Emission>)
      requires Valid() && AllSized(spectra, bins)
      modifies this`sum, this`frames, this`history, ring
      ensures Valid()
      ensures State() == if enabled then Next(old(State()), Frame(spectra), channels) else old(State())
      ensures out.Some? <==> enabled && Taken(old(State()), spectra) && |history| % emitEvery == 0
      ensures out.Some? ==>
                var w := Window(history, avgCount);
                && w != [] && out.value.navg == |w| && IsMean(out.value.mean, w, bins)
    {
      if !enabled {
        return None;
      }
      if channelIndex < 0 || channelIndex >= |spectra| {
        return None;
      }
      Accumulate(spectra[channelIndex]);
      if frames % emitEvery != 0 {
        return None;
      }
      var navg := if frames >= avgCount then avgCount else frames;
      out := Some(Emission(Over(sum, navg), navg));
    }

    /** One event. */
    method Handle(e: Event) returns (out: Option<Emission>)
      requires Valid() && enabled && (e.Frame? ==> AllSized(e.spectra, bins))
      modifies this`channelIndex, this`sum, this`frames, this`history, ring
      ensures Valid() && State() == Next(old(State()), e, channels)
      ensures Right(old(State()), e, out)
    {
      hide Valid, IsMean, Window;
      Counts();
      match e {
        case Frame(spectra) =>
          out := UpdateFft(spectra);
          WindowSized();
        case SwitchTo(index) =>
          SetFftChannelIndex(index);
          out := None;
        case Reset =>
          ResetFftAverage();
          out := None;
      }
    }

    lemma WindowSized()
      requires Valid()
      ensures AllSized(Window(history, avgCount), bins)
    {
    }

    /** What an event in state v has to emit: nothing unless it is a frame that is taken and completes
        another emitEvery spectra since the last clear, and then the mean of the last
        min(taken, avgCount) of them. */
    ghost predicate Right(v: View, e: Event, out: Option<Emission>)
      requires avgCount > 0 && emitEvery > 0
    {
      var h := Next(v, e, channels).history;
      if e.Frame? && Taken(v, e.spectra) && |h| % emitEvery == 0 then
        && out.Some? && out.value.navg == Min(|h|, avgCount)
        && AllSized(Window(h, avgCount), bins) && h != []
        && IsMean(out.value.mean, Window(h, avgCount), bins)
      else out.None?
    }

    /** Any interleaving of frames, switches and resets: every emission is exactly the recomputed mean. */
    method Run(events: seq<Event>) returns (outs: seq<Option<Emission>>)
      requires Valid() && enabled
      requires forall e :: e in events && e.Frame? ==> AllSized(e.spectra, bins)
      modifies this`channelIndex, this`sum, this`frames, this`history, ring
      ensures Valid() && State() == After(old(State()), events, channels)
      ensures |outs| == |events|
      ensures forall i :: 0 <= i < |events| ==> Right(After(old(State()), events[..i], channels), events[i], outs[i])
      ensures forall i :: 0 <= i < |events| ==>
                IsEmission(Spectra(old(history), old(channelIndex), events, channels, i + 1),
                           Heard(old(channelIndex), events, channels, i), outs[i])
    {
      hide Valid, Right, Next, Spectra, Heard, IsEmission;
      Counts();
      outs := [];
      for i := 0 to |events|
        invariant Valid() && enabled && |outs| == i
        invariant State() == After(old(State()), events[..i], channels)
        invariant forall k :: 0 <= k < i ==> Right(After(old(State()), events[..k], channels), events[k], outs[k])
      {
        AfterNext(old(State()), events, i, channels);
        var out := Handle(events[i]);
        outs := outs + [out];
      }
      assert events[..|events|] == events;
      forall i | 0 <= i < |events|
        ensures IsEmission(Spectra(old(history), old(channelIndex), events, channels, i + 1),
                           Heard(old(channelIndex), events, channels, i), outs[i])
      {
        RightIs(old(State()), events, i, outs[i]);
      }
    }

    /** Given the spectra remembered and whether the last of them is new: an emission if it is and their number is a
        multiple of emitEvery, and then the mean of the last avgCount of them, or of all if there are fewer. */
    ghost predicate IsEmission(h: seq<Spectrum>, heard: bool, out: Option<Emission>)
      requires avgCount > 0 && emitEvery > 0
    {
      && (out.Some? <==> heard && |h| % emitEvery == 0)
      && (out.Some? ==>
            var navg := if |h| < avgCount then |h| else avgCount;
            var last := h[|h| - navg..];
            && out.value.navg == navg > 0 && |out.value.mean| == bins && AllSized(last, bins)
            && forall b :: 0 <= b < bins ==> out.value.mean[b] == Total(last, b) / (navg as real))
    }

    lemma RightIs(v: View, events: seq<Event>, i: nat, out: Option<Emission>)
      requires avgCount > 0 && emitEvery > 0 && i < |events| && Right(After(v, events[..i], channels), events[i], out)
      ensures IsEmission(Spectra(v.history, v.channel, events, channels, i + 1), Heard(v.channel, events, channels, i), out)
    {
      AfterIs(v, events, channels, i);
      AfterIs(v, events, channels, i + 1);
      AfterNext(v, events, i, channels);
      RightEmission(After(v, events[..i], channels), events[i], out);
      hide Spectra, After, Next, Right, IsEmission;
    }

    lemma RightEmission(v: View, e: Event, out: Option<Emission>)
      requires avgCount > 0 && emitEvery > 0 && Right(v, e, out)
      ensures IsEmission(Next(v, e, channels).history, e.Frame? && Taken(v, e.spectra), out)
    {
      hide Next, Total;
    }

    lemma Counts()
      requires Valid()
      ensures avgCount > 0 && emitEvery > 0
    {
    }
  }

  lemma AfterNext(v: View, events: seq<Event>, i: nat, channels: nat)
    requires i < |events|
    ensures After(v, events[..i + 1], channels) == Next(After(v, events[..i], channels), events[i], channels)
  {
    hide Next;
    assert events[..i + 1][..i] == events[..i];
  }

  ghost function After(v: View, events: seq<Event>, channels: nat): View {
    if events == [] then v else Next(After(v, events[..|events| - 1], channels), events[|events| - 1], channels)
  }

  lemma SumSize(sum: Spectrum, w: seq<Spectrum>, bins: nat)
    requires SumIs(sum, w, bins)
    ensures |sum| == bins && AllSized(w, bins)
  {
  }
}
