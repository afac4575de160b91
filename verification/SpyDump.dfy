/** The two spy-buffer dumps of srcs/DaphneSlowController.cpp: one reply for the whole request
    (dumpSpybuffer) and the body of one chunk (the producer of dumpSpyBufferChunk). */
module SpyDump {
  import opened Arithmetic
  import opened SpyBuffer

  /** One channel's mapped page: 0x1000 bytes. */
  type Page = s: seq<Word> | |s| == 1024 witness seq(1024, _ => 0)

  /** What the hardware shows: the page of a PL channel when waveform w is read out. */
  type Snapshots = (nat, nat) -> Page

  /** Overrun: some sample was to be stored past the end of the reply. */
  datatype DumpResult = DumpOk(data: seq<Word>) | DumpError | Overrun

  /** A waveform length the server accepts: it then fits the channel's page. */
  type Length = n: nat | n <= 2048

  const MAX_CHANNEL := 39

  /** AFE_board2PL_map. */
  function BoardToPL(afe: nat): (r: nat)
    requires afe < 5
    ensures r < 5
  {
    if afe == 0 then 0 else 5 - afe
  }

  /** AFE_PL2board_map. */
  function PLToBoard(afe: nat): (r: nat)
    requires afe < 5
    ensures r < 5
  {
    match afe
    case 0 => 0
    case 4 => 1
    case 3 => 2
    case 2 => 3
    case 1 => 4
  }

  function MapChannel(ch: nat): (r: nat)
    requires ch <= MAX_CHANNEL
    ensures r <= MAX_CHANNEL
  {
    BoardToPL(ch / 8) * 8 + ch % 8
  }

  /** Board and PL numbering are inverse permutations, so every board channel has its own PL channel: AFE 0 is
      AFE 0, the other four run backwards, and channels keep their order within an AFE. */
  lemma MapChannelInvertible(ch: nat)
    requires ch <= MAX_CHANNEL
    ensures PLToBoard(MapChannel(ch) / 8) * 8 + MapChannel(ch) % 8 == ch
    ensures ch < 8 ==> MapChannel(ch) == ch
    ensures 8 <= ch ==> MapChannel(ch) / 8 + ch / 8 == 5 && MapChannel(ch) % 8 == ch % 8
  {
    assert PLToBoard(BoardToPL(ch / 8)) == ch / 8;
  }

  ghost predicate InRange(channels: seq<nat>) {
    forall k :: 0 <= k < |channels| ==> channels[k] <= MAX_CHANNEL
  }

  function Mapped(channels: seq<nat>): (r: seq<nat>)
    requires InRange(channels)
    ensures |r| == |channels|
    ensures forall k :: 0 <= k < |r| ==> r[k] == MapChannel(channels[k])
  {
    seq(|channels|, k requires 0 <= k < |channels| => MapChannel(channels[k]))
  }

  // ---- The layout both dumps promise ----

  /** Waveform w of the listed PL channels, channel after channel. */
  function WaveBlock(snap: Snapshots, chans: seq<nat>, L: Length, w: nat): seq<Word>
  {
    if chans == [] then []
    else
      var n := |chans| - 1;
      WaveBlock(snap, chans[..n], L, w) + Samples(snap(w, chans[n]), L)
  }

  /** Waveforms lo..hi, each with all its channels. */
  function Waves(snap: Snapshots, chans: seq<nat>, L: Length, lo: nat, hi: nat): seq<Word>
    requires lo <= hi
    decreases hi - lo
  {
    if lo == hi then []
    else Waves(snap, chans, L, lo, hi - 1) + WaveBlock(snap, chans, L, hi - 1)
  }

  lemma {:induction false} WaveBlockLength(snap: Snapshots, chans: seq<nat>, L: Length, w: nat)
    ensures |WaveBlock(snap, chans, L, w)| == |chans| * L
  {
    if chans != [] {
      var n := |chans| - 1;
      WaveBlockLength(snap, chans[..n], L, w);
      Distribute(n, 1, L);
    }
  }

  lemma {:induction false} WavesLength(snap: Snapshots, chans: seq<nat>, L: Length, lo: nat, hi: nat)
    requires lo <= hi
    ensures |Waves(snap, chans, L, lo, hi)| == (hi - lo) * (|chans| * L)
    decreases hi - lo
  {
    hide *;
    if lo < hi {
      WavesLength(snap, chans, L, lo, hi - 1);
      WaveBlockLength(snap, chans, L, hi - 1);
      WavesStep(snap, chans, L, lo, hi - 1);
      Distribute(hi - 1 - lo, 1, |chans| * L);
    } else {
      WavesStep(snap, chans, L, lo, hi);
    }
  }

  lemma WavesStep(snap: Snapshots, chans: seq<nat>, L: Length, lo: nat, hi: nat)
    requires lo <= hi
    ensures Waves(snap, chans, L, lo, lo) == []
    ensures Waves(snap, chans, L, lo, hi + 1) == Waves(snap, chans, L, lo, hi) + WaveBlock(snap, chans, L, hi)
  {
  }

  lemma BlockStep(snap: Snapshots, chans: seq<nat>, L: Length, w: nat, j: nat)
    requires j < |chans|
    ensures WaveBlock(snap, chans[..j + 1], L, w) == WaveBlock(snap, chans[..j], L, w) + Samples(snap(w, chans[j]), L)
  {
    assert chans[..j + 1][..j] == chans[..j];
  }

  lemma BlockStart(snap: Snapshots, chans: seq<nat>, L: Length, w: nat)
    ensures WaveBlock(snap, chans[..0], L, w) == []
  {
  }

  lemma {:induction false} WavesSplit(snap: Snapshots, chans: seq<nat>, L: Length, lo: nat, mid: nat, hi: nat)
    requires lo <= mid <= hi
    ensures Waves(snap, chans, L, lo, mid) + Waves(snap, chans, L, mid, hi) == Waves(snap, chans, L, lo, hi)
    decreases hi - mid
  {
    if mid < hi {
      WavesSplit(snap, chans, L, lo, mid, hi - 1);
      var a, b, c := Waves(snap, chans, L, lo, mid), Waves(snap, chans, L, mid, hi - 1), WaveBlock(snap, chans, L, hi - 1);
      assert a + (b + c) == (a + b) + c;
    } else {
      assert Waves(snap, chans, L, mid, hi) == [];
    }
  }

  /** Channel k of a waveform block starts k*L words into it. */
  lemma {:induction false} WaveBlockPlace(snap: Snapshots, chans: seq<nat>, L: Length, w: nat, k: nat)
      returns (pre: seq<Word>, post: seq<Word>)
    requires k < |chans|
    ensures WaveBlock(snap, chans, L, w) == pre + Samples(snap(w, chans[k]), L) + post
    ensures |pre| == k * L
    decreases |chans|
  {
    var n := |chans| - 1;
    if k < n {
      var post';
      pre, post' := WaveBlockPlace(snap, chans[..n], L, w, k);
      post := post' + Samples(snap(w, chans[n]), L);
    } else {
      pre, post := WaveBlock(snap, chans[..n], L, w), [];
      WaveBlockLength(snap, chans[..n], L, w);
    }
  }

  /** Channel k of waveform w starts at the row-major place (w*C + k)*L, counted from waveform lo. */
  lemma WavesPlace(snap: Snapshots, chans: seq<nat>, L: Length, lo: nat, hi: nat, w: nat, k: nat)
      returns (pre: seq<Word>, post: seq<Word>)
    requires lo <= w < hi && k < |chans|
    ensures Waves(snap, chans, L, lo, hi) == pre + Samples(snap(w, chans[k]), L) + post
    ensures |pre| == ((w - lo) * |chans| + k) * L
  {
    hide *;
    var front, rest := Waves(snap, chans, L, lo, w), Waves(snap, chans, L, w + 1, hi);
    var p, q := WaveBlockPlace(snap, chans, L, w, k);
    pre, post := front + p, q + rest;
    WavesSplit(snap, chans, L, lo, w + 1, hi);
    WavesStep(snap, chans, L, lo, w);
    assert front + (p + Samples(snap(w, chans[k]), L) + q) + rest == pre + Samples(snap(w, chans[k]), L) + post;
    WavesLength(snap, chans, L, lo, w);
    PlaceInBlock(w - lo, |chans|, k, L);
  }

  lemma PlaceInBlock(i: int, C: int, k: int, L: int)
    ensures (i * C + k) * L == i * (C * L) + k * L
  {
  }

  // ---- Filling a buffer ----

  /** Extraction, seen from a buffer that is filled front to back. */
  method Extract(data: array<Word>, at: nat, page: Page, L: Length)
    requires at + L <= data.Length
    modifies data
    ensures data[..at + L] == old(data[..at]) + Samples(page, L)
  {
    ExtractParallel(data, at, page, L);
    ghost var now := data[..];
    assert now[..at + L] == old(data[..])[..at] + Samples(page, L);
  }

  /** Waveform w of every channel, as the i-th block of the buffer, as far as it fits. */
  method FillWave(data: array<Word>, i: nat, snap: Snapshots, chans: seq<nat>, L: Length, w: nat, ghost start: nat)
      returns (fits: bool)
    requires start == i * (|chans| * L) && start <= data.Length
    modifies data
    ensures fits <==> start + |WaveBlock(snap, chans, L, w)| <= data.Length
    ensures fits ==> data[..start + |WaveBlock(snap, chans, L, w)|] == old(data[..start]) + WaveBlock(snap, chans, L, w)
  {
    hide *;
    ghost var at := start;
    ghost var before := data[..at];
    PlaceInBlock(i, |chans|, 0, L);
    WaveBlockLength(snap, chans, L, w);
    BlockStart(snap, chans, L, w);
    for j := 0 to |chans|
      invariant at == (i * |chans| + j) * L && 0 <= at <= data.Length
      invariant at == start + |WaveBlock(snap, chans[..j], L, w)|
      invariant data[..at] == before + WaveBlock(snap, chans[..j], L, w)
    {
      assert at + L == (i * |chans| + (j + 1)) * L <= start + |WaveBlock(snap, chans, L, w)| by {
        RowEnd(i, |chans|, j, L);
      }
      var channel := chans[j];
      var waveformStart := (i * |chans| + j) * L;
      if waveformStart + L > data.Length {
        return false;
      }
      Extract(data, waveformStart, snap(w, channel), L);
      BlockStep(snap, chans, L, w, j);
      at := at + L;
    }
    assert chans[..|chans|] == chans;
    fits := true;
  }

  lemma RowEnd(i: int, C: int, j: int, L: int)
    requires 0 <= j < C && 0 <= L
    ensures (i * C + j) * L + L == (i * C + (j + 1)) * L <= i * (C * L) + C * L
  {
    Distribute(i * C + j, 1, L);
    PlaceInBlock(i, C, j + 1, L);
    Distribute(j + 1, C - j - 1, L);
    assert (C - j - 1) * L >= 0;
  }

  lemma NextBlockFits(snap: Snapshots, chans: seq<nat>, L: Length, lo: nat, w: nat, hi: nat)
    requires lo <= w < hi
    ensures |Waves(snap, chans, L, lo, w)| + |WaveBlock(snap, chans, L, w)| <= |Waves(snap, chans, L, lo, hi)|
  {
    hide *;
    WavesSplit(snap, chans, L, lo, w + 1, hi);
    WavesStep(snap, chans, L, lo, w);
  }

  /** Waveforms start .. start + count of every channel, from the front of the buffer, as far as they fit. */
  method FillWaves(data: array<Word>, snap: Snapshots, chans: seq<nat>, L: Length, start: nat, count: nat)
      returns (fits: bool)
    modifies data
    ensures fits <==> |Waves(snap, chans, L, start, start + count)| <= data.Length
    ensures fits ==>
              data[..|Waves(snap, chans, L, start, start + count)|] == Waves(snap, chans, L, start, start + count)
  {
    hide *;
    ghost var filled: seq<Word> := [];
    WavesStep(snap, chans, L, start, start);
    for i := 0 to count
      invariant filled == Waves(snap, chans, L, start, start + i) && |filled| <= data.Length
      invariant data[..|filled|] == filled
    {
      NextBlockFits(snap, chans, L, start, start + i, start + count);
      WavesLength(snap, chans, L, start, start + i);
      fits := FillWave(data, i, snap, chans, L, start + i, |filled|);
      if !fits {
        return;
      }
      WavesStep(snap, chans, L, start, start + i);
      filled := filled + WaveBlock(snap, chans, L, start + i);
    }
    fits := true;
  }

  /** The body of one chunk, whose buffer is sized in 64 bits and always right. */
  method FillChunk(snap: Snapshots, chans: seq<nat>, L: Length, start: nat, count: nat) returns (data: seq<Word>)
    ensures data == Waves(snap, chans, L, start, start + count)
  {
    hide *;
    WavesLength(snap, chans, L, start, start + count);
    var buffer := new Word[count * (|chans| * L)](_ => 0);
    var fits := FillWaves(buffer, snap, chans, L, start, count);
    assert buffer[..] == buffer[..buffer.Length];
    data := buffer[..];
  }

  lemma BlockFits(i: int, n: int, m: int)
    requires 0 <= i < n && 0 <= m
    ensures 0 <= i * m <= i * m + m == (i + 1) * m <= n * m
  {
    Distribute(i, 1, m);
    Distribute(i + 1, n - i - 1, m);
    assert (n - i - 1) * m >= 0;
  }

  /** The path dumpSpybuffer keeps for a single channel; here the place of a waveform is a uint32. */
  method FillSingle(data: array<Word>, snap: Snapshots, channel: nat, L: Length, N: nat) returns (fits: bool)
    requires data.Length < I32
    modifies data
    ensures fits <==> |Waves(snap, [channel], L, 0, N)| <= data.Length
    ensures fits ==> data[..|Waves(snap, [channel], L, 0, N)|] == Waves(snap, [channel], L, 0, N)
  {
    hide Waves, WaveBlock, Samples;
    ghost var at := 0;
    WavesStep(snap, [channel], L, 0, 0);
    WavesLength(snap, [channel], L, 0, N);
    for j := 0 to N
      invariant at == j * L && 0 <= at <= data.Length
      invariant at == |Waves(snap, [channel], L, 0, j)|
      invariant data[..at] == Waves(snap, [channel], L, 0, j)
    {
      BlockFits(j, N, L);
      SinglePlace(L, j, at);
      var waveformStart := L * j % U32;
      if waveformStart + L > data.Length {
        return false;
      }
      Extract(data, waveformStart, snap(j, channel), L);
      at := at + L;
      SingleBlock(snap, channel, L, j);
      WavesStep(snap, [channel], L, 0, j);
    }
    fits := true;
  }

  lemma SinglePlace(L: nat, j: nat, at: nat)
    requires at == j * L && at < U32
    ensures L * j % U32 == at
  {
  }

  lemma SingleBlock(snap: Snapshots, channel: nat, L: Length, w: nat)
    ensures WaveBlock(snap, [channel], L, w) == Samples(snap(w, channel), L)
  {
    BlockStart(snap, [channel], L, w);
    BlockStep(snap, [channel], L, w, 0);
    assert [channel][..1] == [channel];
  }

  // ---- The reply buffer ----

  const I32: nat := 0x8000_0000

  /** The words of a whole dump. */
  function DumpWords(L: nat, N: nat, C: nat): nat { L * N * C }

  lemma WavesAreDumpWords(snap: Snapshots, chans: seq<nat>, L: Length, N: nat)
    ensures |Waves(snap, chans, L, 0, N)| == DumpWords(L, N, |chans|)
  {
    WavesLength(snap, chans, L, 0, N);
    Regroup(L, N, |chans|);
    Regroup(N, |chans|, L);
  }

  /** The size the reply is given: a uint32 product, then read as an int. */
  function ReplySize(L: nat, N: nat, C: nat): int {
    var product := L * N % U32 * C % U32;
    if product < I32 then product else product - U32
  }

  /** A field of negative size holds nothing. */
  function ReplyCapacity(L: nat, N: nat, C: nat): (r: nat)
    ensures r < I32
  {
    if ReplySize(L, N, C) < 0 then 0 else ReplySize(L, N, C)
  }

  /** Where waveform j of the i-th listed channel is stored. */
  function StoreStart(L: nat, C: nat, j: nat, i: nat): nat {
    if C == 1 then L * j % U32 else L * (j * C + i)
  }

  lemma FactorsBelow(L: nat, N: nat, C: nat)
    requires L * N * C < I32 && C >= 1
    ensures L * N < I32
  {
    Distribute(C - 1, 1, L * N);
    assert (C - 1) * (L * N) >= 0;
  }

  /** The reply is as large as its contents exactly when these number less than 2^31. */
  lemma CapacityIsEnoughIff(L: nat, N: nat, C: nat)
    ensures DumpWords(L, N, C) <= ReplyCapacity(L, N, C) <==> DumpWords(L, N, C) < I32
    ensures DumpWords(L, N, C) < I32 ==> ReplyCapacity(L, N, C) == DumpWords(L, N, C)
  {
    if DumpWords(L, N, C) < I32 && C >= 1 {
      FactorsBelow(L, N, C);
    }
  }

  /** Every store lies in the reply if and only if DumpWords(L, N, C) < 2^31. */
  lemma StoresInsideIff(L: nat, N: nat, C: nat)
    requires 1 <= L <= 2048
    ensures (forall j: nat, i: nat :: j < N && i < C ==> StoreStart(L, C, j, i) + L <= ReplyCapacity(L, N, C))
        <==> DumpWords(L, N, C) < I32
  {
    CapacityIsEnoughIff(L, N, C);
    if DumpWords(L, N, C) < I32 {
      forall j: nat, i: nat | j < N && i < C
        ensures StoreStart(L, C, j, i) + L <= ReplyCapacity(L, N, C)
      {
        StoreInside(L, N, C, j, i);
      }
    } else {
      var j, i := StoreOutside(L, N, C);
    }
  }

  lemma StoreInside(L: nat, N: nat, C: nat, j: nat, i: nat)
    requires j < N && i < C && L * N * C < I32
    ensures StoreStart(L, C, j, i) + L <= L * N * C
  {
    RowEnd(j, C, i, L);
    BlockFits(j, N, C * L);
    Regroup(L, N, C);
    assert N * (C * L) == L * (N * C) by { Regroup(N, C, L); }
  }

  /** Of M places of L words, the one that reaches 2^31 first. */
  lemma FirstBeyond(L: nat, M: nat) returns (q: nat)
    requires 1 <= L && M * L >= I32
    ensures q < M && q * L < I32 <= q * L + L
  {
    q := (I32 - 1) / L;
    assert I32 - 1 == q * L + (I32 - 1) % L;
    if q >= M {
      ProductOrder(M, q, L);
    }
  }

  /** The first store to reach 2^31 is made, and is past the end. */
  lemma StoreOutside(L: nat, N: nat, C: nat) returns (j: nat, i: nat)
    requires 1 <= L && L * N * C >= I32
    ensures j < N && i < C && StoreStart(L, C, j, i) + L >= I32
  {
    Regroup(L, N, C);
    var q := FirstBeyond(L, N * C);
    assert C > 0;
    j, i := q / C, q % C;
    assert q == j * C + i;
    RowBelow(q, j, i, N, C);
    if C == 1 {
      assert q * L == L * j;
    }
  }

  lemma RowBelow(q: nat, j: nat, i: nat, N: nat, C: nat)
    requires q == j * C + i && q < N * C
    ensures j < N
  {
    if j >= N {
      ProductOrder(N, j, C);
    }
  }

  /** An accepted request whose reply is sized 0 while 2^32 words are stored. */
  lemma OverrunWitness()
    ensures ReplyCapacity(2048, 0x20_0000, 1) == 0 && DumpWords(2048, 0x20_0000, 1) == U32
  {
  }

  /** dumpSpybuffer. One listed channel takes a path of its own. */
  method Dump(snap: Snapshots, channels: seq<nat>, L: nat, N: nat) returns (r: DumpResult)
    ensures r.DumpError? <==> !(1 <= L <= 2048 && forall k :: 0 <= k < |channels| ==> channels[k] <= 39)
    ensures r.Overrun? <==> !r.DumpError? && DumpWords(L, N, |channels|) >= 0x8000_0000
    ensures r.DumpOk? ==> r.data == Waves(snap, Mapped(channels), L, 0, N)
  {
    for i := 0 to |channels|
      invariant forall k :: 0 <= k < i ==> channels[k] <= MAX_CHANNEL
    {
      if channels[i] > MAX_CHANNEL {
        return DumpError;
      }
    }
    if L > 2048 || L < 1 {
      return DumpError;
    }
    hide Waves, ReplyCapacity, DumpWords;
    var data := new Word[ReplyCapacity(L, N, |channels|)](_ => 0);
    CapacityIsEnoughIff(L, N, |channels|);
    WavesAreDumpWords(snap, Mapped(channels), L, N);
    var fits: bool;
    if |channels| == 1 {
      fits := FillSingle(data, snap, MapChannel(channels[0]), L, N);
      assert Mapped(channels) == [MapChannel(channels[0])];
    } else {
      fits := FillWaves(data, snap, Mapped(channels), L, 0, N);
    }
    if !fits {
      return Overrun;
    }
    assert data[..] == data[..data.Length];
    r := DumpOk(data[..]);
  }

  datatype Parsed = Parsed(waves: nat, channels: nat, samples: nat, flat: seq<Word>) | TooShort

  /** parse_dump_response: the payload as a (W, K, N) array, refused when too short. A response without a
      waveform count is read as one waveform. */
  function ParseDumpResponse(data: seq<Word>, numberOfWaveforms: nat, K: nat, N: nat): Parsed {
    var W := if numberOfWaveforms == 0 then 1 else numberOfWaveforms;
    if |data| < W * K * N then TooShort else Parsed(W, K, N, data[..W * K * N])
  }

  /** Where row-major reshaping puts element (w, k, n). */
  function RowMajor(p: Parsed, w: nat, k: nat, n: nat): nat
    requires p.Parsed?
  {
    (w * p.channels + k) * p.samples + n
  }

  /** Any response: it is refused exactly if it is shorter than announced, one waveform being taken for granted, and
      otherwise read in row-major order. */
  lemma ParsedIs(data: seq<Word>, numberOfWaveforms: nat, K: nat, N: nat)
    ensures var W := if numberOfWaveforms == 0 then 1 else numberOfWaveforms;
            var p := ParseDumpResponse(data, numberOfWaveforms, K, N);
      && (p.TooShort? <==> |data| < W * K * N)
      && (p.Parsed? ==>
            && p.waves == W && p.channels == K && p.samples == N && |p.flat| == W * K * N
            && (forall i :: 0 <= i < |p.flat| ==> p.flat[i] == data[i])
            && forall w: nat, k: nat, n: nat :: RowMajor(p, w, k, n) == (w * K + k) * N + n)
  {
  }

  /** What a client finds at (w, k, n) of a successful dump is sample n of channel k of waveform w. */
  lemma ParsedDumpIndex(snap: Snapshots, channels: seq<nat>, L: Length, W: nat, w: nat, k: nat, n: nat)
    requires InRange(channels) && w < W && k < |channels| && n < L
    ensures var p := ParseDumpResponse(Waves(snap, Mapped(channels), L, 0, W), W, |channels|, L);
            && p.Parsed?
            && RowMajor(p, w, k, n) < |p.flat|
            && p.flat[RowMajor(p, w, k, n)] == MappedData(snap(w, MapChannel(channels[k])), n)
  {
    WavesLength(snap, Mapped(channels), L, 0, W);
    Regroup(W, |channels|, L);
    var pre, post := WavesPlace(snap, Mapped(channels), L, 0, W, w, k);
    var samples := Samples(snap(w, MapChannel(channels[k])), L);
    assert (pre + samples + post)[|pre| + n] == samples[n];
  }
}
