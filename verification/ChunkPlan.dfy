/** The chunk plan of dumpSpyBufferChunk (srcs/DaphneSlowController.cpp): which waveforms go into
    which packet. wf_start and chunk_seq are uint32 and wrap. */
module ChunkPlan {
  import opened Arithmetic
  import opened SpyBuffer
  import opened SpyDump

  datatype Request = Request(channels: seq<nat>, L: nat, N: nat, chunk: nat)

  datatype Refusal = EmptyChannelList | BadSampleCount | NoWaveforms | BadChunkSize | BadChannel | Accepted

  ghost predicate Acceptable(req: Request) {
    && req.channels != [] && 1 <= req.L <= 2048 && req.N != 0
    && 1 <= req.chunk <= 1024 && InRange(req.channels)
  }

  /** The checks in the order the server makes them. */
  method Validate(req: Request) returns (r: Refusal)
    ensures r == Accepted <==> Acceptable(req)
    ensures r == EmptyChannelList <==> req.channels == []
    ensures r == BadSampleCount <==> req.channels != [] && !(1 <= req.L <= 2048)
    ensures r == NoWaveforms <==> req.channels != [] && 1 <= req.L <= 2048 && req.N == 0
    ensures r == BadChunkSize <==> req.channels != [] && 1 <= req.L <= 2048 && req.N > 0 && !(1 <= req.chunk <= 1024)
    ensures r == BadChannel <==>
            && req.channels != [] && 1 <= req.L <= 2048 && req.N > 0 && 1 <= req.chunk <= 1024
            && exists k :: 0 <= k < |req.channels| && req.channels[k] > 39
  {
    if |req.channels| == 0 { return EmptyChannelList; }
    if req.L <= 0 || req.L > 2048 { return BadSampleCount; }
    if req.N == 0 { return NoWaveforms; }
    if req.chunk == 0 || req.chunk > 1024 { return BadChunkSize; }
    for i := 0 to |req.channels|
      invariant forall k :: 0 <= k < i ==> req.channels[k] <= MAX_CHANNEL
    {
      if req.channels[i] > MAX_CHANNEL { return BadChannel; }
    }
    r := Accepted;
  }

  /** An accepted request as it arrives: the counts are uint32. */
  type Req = r: Request | Acceptable(r) && r.N < U32 witness Request([0], 1, 1, 1)

  datatype ChunkPacket = ChunkPacket(seqNo: nat, start: nat, count: nat, data: seq<Word>)

  /** wf_start at the loop head of iteration k. */
  function Start(req: Req, k: nat): (r: nat)
    ensures r < U32
  {
    if k == 0 then 0 else (Start(req, k - 1) + req.chunk) % U32
  }

  /** The packet made at a loop head with this wf_start, in iteration k. */
  function MakePacket(snap: Snapshots, req: Req, k: nat, start: nat): ChunkPacket
    requires start < req.N
  {
    var count := Min(req.chunk, req.N - start);
    ChunkPacket(k % U32, start, count, Waves(snap, Mapped(req.channels), req.L, start, start + count))
  }

  /** One iteration of the producer's loop, up to the push. */
  method BuildPacket(snap: Snapshots, req: Req, k: nat, wfStart: nat) returns (packet: ChunkPacket)
    requires wfStart < req.N
    ensures packet == MakePacket(snap, req, k, wfStart)
  {
    var wfCount := Min(req.chunk, req.N - wfStart);
    var data := FillChunk(snap, Mapped(req.channels), req.L, wfStart, wfCount);
    packet := ChunkPacket(k % U32, wfStart, wfCount, data);
  }

  /** The number of chunks: N / chunk rounded up. */
  function Chunks(req: Req): nat {
    (req.N + req.chunk - 1) / req.chunk
  }

  /** ceil(N/chunk)*chunk fits a uint32. */
  predicate NoWrap(req: Req) {
    Chunks(req) * req.chunk < U32
  }

  lemma CeilingDivision(req: Req)
    ensures 0 < Chunks(req) && (Chunks(req) - 1) * req.chunk < req.N <= Chunks(req) * req.chunk
  {
    var a, c := req.N + req.chunk - 1, req.chunk;
    assert a == (a / c) * c + a % c && 0 <= a % c < c;
    assert (Chunks(req) - 1) * c == Chunks(req) * c - c;
  }

  lemma FullChunkBelow(k: nat, n: nat, c: nat, N: nat)
    requires k < n && (n - 1) * c < N
    ensures 0 <= k * c < N
  {
    ProductOrder(k, n - 1, c);
    NotNegative(k, c);
  }

  lemma StartStep(req: Req, k: nat)
    ensures Start(req, 0) == 0 && Start(req, k + 1) == (Start(req, k) + req.chunk) % U32
  {
  }

  /** Before the ceil-th iteration nothing wraps. */
  lemma {:induction false} StartIsProduct(req: Req, k: nat)
    requires k < Chunks(req)
    ensures Start(req, k) == k * req.chunk < req.N
  {
    CeilingDivision(req);
    hide Chunks, Start;
    FullChunkBelow(k, Chunks(req), req.chunk, req.N);
    if k == 0 {
      StartStep(req, 0);
    } else {
      StartIsProduct(req, k - 1);
      StartStep(req, k - 1);
      Distribute(k - 1, 1, req.chunk);
    }
  }

  /** The producer's loop guard fails at iteration ceil(N/chunk) for the first time exactly when
      ceil(N/chunk)*chunk < 2^32; otherwise wf_start has wrapped to a small value and the loop goes on. */
  lemma LoopEndsOnTimeIff(req: Req)
    ensures forall k: nat :: k < Chunks(req) ==> Start(req, k) < req.N
    ensures Start(req, Chunks(req)) >= req.N <==> NoWrap(req)
    ensures !NoWrap(req) ==> Start(req, Chunks(req)) < req.chunk
  {
    forall k: nat | k < Chunks(req)
      ensures Start(req, k) < req.N
    {
      StartIsProduct(req, k);
    }
    var last := Chunks(req) - 1;
    CeilingDivision(req);
    StartIsProduct(req, last);
    Distribute(last, 1, req.chunk);
    OneMoreStep(Start(req, last), req.chunk, req.N);
  }

  lemma OneMoreStep(x: nat, c: nat, N: nat)
    requires x < N <= x + c && N < U32 && c <= 1024
    ensures (x + c) % U32 >= N <==> x + c < U32
    ensures x + c >= U32 ==> (x + c) % U32 < c
  {
    if x + c >= U32 {
      assert (x + c) % U32 == x + c - U32;
    }
  }

  /** A request the server accepts whose loop does not end on time: the last lap starts over at 0. */
  lemma WrapWitness() returns (req: Req)
    ensures !NoWrap(req) && Start(req, Chunks(req)) == 0
  {
    req := Request([0], 1, 0xFFFF_FFFF, 1024);
    assert Chunks(req) == 0x40_0000;
    StartIsProduct(req, 0x40_0000 - 1);
  }

  lemma PlanStart(req: Req, k: nat)
    requires NoWrap(req) && k <= Chunks(req)
    ensures k < Chunks(req) <==> Start(req, k) < req.N
  {
    LoopEndsOnTimeIff(req);
  }

  /** The packets of a fault-free run, by number. */
  function Planned(snap: Snapshots, req: Req, k: nat): ChunkPacket
    requires Start(req, k) < req.N
  {
    MakePacket(snap, req, k, Start(req, k))
  }

  /** The (start, count) ranges tile [0, N): the first starts at 0, each starts where the one before
      ends, the last ends at N, none is empty; numbers count up from 0; and only the last is final. */
  lemma PlanTiles(snap: Snapshots, req: Req, k: nat)
    requires k < Chunks(req)
    ensures Start(req, k) < req.N
    ensures var p := Planned(snap, req, k);
      && p.seqNo == k
      && 1 <= p.count <= req.chunk
      && p.start == k * req.chunk
      && (k + 1 < Chunks(req) ==> Start(req, k + 1) == p.start + p.count)
      && (p.start + p.count >= req.N <==> k + 1 == Chunks(req))
      && p.start + p.count <= req.N
  {
    hide Waves, Mapped, Start, Chunks, Planned, MakePacket, InRange;
    StartIsProduct(req, k);
    PlanArithmetic(req, k, k * req.chunk);
    PacketShape(snap, req, k);
    if k + 1 < Chunks(req) {
      StartIsProduct(req, k + 1);
      Distribute(k, 1, req.chunk);
    }
  }

  lemma PacketData(snap: Snapshots, req: Req, k: nat)
    requires Start(req, k) < req.N
    ensures var p := Planned(snap, req, k);
            p.data == Waves(snap, Mapped(req.channels), req.L, p.start, p.start + p.count)
  {
    hide Waves, Mapped, Start;
  }

  lemma PacketShape(snap: Snapshots, req: Req, k: nat)
    requires Start(req, k) < req.N && k < req.N
    ensures var p := Planned(snap, req, k);
      && p.seqNo == k && p.start == Start(req, k)
      && p.count == if req.chunk <= req.N - p.start then req.chunk else req.N - p.start
  {
    hide Waves, Mapped, Start;
  }

  lemma PlanArithmetic(req: Req, k: nat, x: nat)
    requires k < Chunks(req) && x == k * req.chunk
    ensures k <= x < req.N
    ensures k + 1 < Chunks(req) ==> x + req.chunk < req.N
    ensures k + 1 == Chunks(req) ==> req.N <= x + req.chunk
  {
    CeilingDivision(req);
    SmallerThanProduct(k, req.chunk);
    Distribute(k, 1, req.chunk);
    if k + 1 < Chunks(req) {
      StartIsProduct(req, k + 1);
    } else {
      hide *;
    }
  }

  lemma SmallerThanProduct(k: nat, c: nat)
    requires 1 <= c
    ensures k <= k * c
  {
    Distribute(1, c - 1, k);
  }

  /** The data of the first j packets, end to end. */
  function Concatenated(snap: Snapshots, req: Req, j: nat): seq<Word>
    requires forall k: nat :: k < j ==> Start(req, k) < req.N
  {
    if j == 0 then [] else Concatenated(snap, req, j - 1) + Planned(snap, req, j - 1).data
  }

  /** How many waveforms the first j packets carry. */
  function Covered(req: Req, j: nat): nat {
    Min(j * req.chunk, req.N)
  }

  lemma CoveredStep(snap: Snapshots, req: Req, k: nat)
    requires k < Chunks(req)
    ensures Start(req, k) < req.N
    ensures Covered(req, k) == Planned(snap, req, k).start
    ensures Covered(req, k + 1) == Planned(snap, req, k).start + Planned(snap, req, k).count
  {
    StartIsProduct(req, k);
    Distribute(k, 1, req.chunk);
    hide Waves, Mapped, Start, Chunks;
  }

  lemma AllCovered(req: Req)
    ensures Covered(req, Chunks(req)) == req.N
  {
    CeilingDivision(req);
  }

  lemma GuardHolds(req: Req, j: nat)
    requires j <= Chunks(req)
    ensures forall k: nat :: k < j ==> Start(req, k) < req.N
  {
    LoopEndsOnTimeIff(req);
  }

  /** Chunking keeps the meaning: the first j packets together hold waveforms 0 .. min(j*chunk, N) in
      the layout of the one-reply dump, and all of them hold exactly what that dump returns. */
  lemma {:induction false} ChunkingPreservesData(snap: Snapshots, req: Req, j: nat)
    requires j <= Chunks(req)
    ensures forall k: nat :: k < j ==> Start(req, k) < req.N
    ensures Concatenated(snap, req, j) == Waves(snap, Mapped(req.channels), req.L, 0, Covered(req, j))
    ensures j == Chunks(req) ==> Covered(req, j) == req.N
  {
    hide Chunks, Start, Covered, Min, Mapped, WaveBlock;
    GuardHolds(req, j);
    AllCovered(req);
    if j > 0 {
      ChunkingPreservesData(snap, req, j - 1);
      CoveredStep(snap, req, j - 1);
      WavesSplit(snap, Mapped(req.channels), req.L, 0, Covered(req, j - 1), Covered(req, j));
    } else {
      assert Covered(req, 0) == 0 by { CoveredZero(req); }
    }
  }

  lemma CoveredZero(req: Req)
    ensures Covered(req, 0) == 0
  {
  }

  /** The two server paths agree: for the same snapshots a client that concatenates the chunks holds
      the array dumpSpybuffer sends, if that one can hold it at all. */
  method ChunksEqualDump(snap: Snapshots, req: Req) returns (whole: DumpResult)
    ensures forall k: nat :: k < Chunks(req) ==> Start(req, k) < req.N
    ensures whole == if DumpWords(req.L, req.N, |req.channels|) < 0x8000_0000 then DumpOk(Concatenated(snap, req, Chunks(req))) else Overrun
  {
    hide DumpWords;
    whole := Dump(snap, req.channels, req.L, req.N);
    ChunkingPreservesData(snap, req, Chunks(req));
  }
}
