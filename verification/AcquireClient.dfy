/** The client side of a chunked acquisition: the streaming receive loop of
    client/protobuf_acquire_list_channels.py and load_channel_waves of client/led_charge.py.
    A .dat file is the sequence of its uint16 values. */
module AcquireClient {
  import opened Arithmetic
  import opened SpyBuffer
  import opened SpyDump
  import opened ChunkPlan
  import opened ChunkTransfer

  type Half = bv16
  type Files = map<nat, seq<Half>>

  /** astype(np.uint16) of one uint32. */
  function NarrowWord(w: Word): Half { (w & 0xFFFF) as bv16 }

  function Narrow(ws: seq<Word>): (r: seq<Half>)
    ensures |r| == |ws|
  {
    seq(|ws|, i requires 0 <= i < |ws| => NarrowWord(ws[i]))
  }

  /** The int32 a uint16 is read back as: through int16 when signed, directly otherwise. */
  function Widen(h: Half, signed: bool): Word {
    if signed && h & 0x8000 != 0 then 0xFFFF_0000 | (h as bv32) else h as bv32
  }

  /** Narrowing loses nothing exactly for the numbers of 16 bits the reader takes the values to be; a 14-bit sample is
      one either way. */
  lemma NarrowingIsLossless(w: Word, signed: bool)
    ensures Widen(NarrowWord(w), signed) == w <==> w < 0x8000 || (if signed then w >= 0xFFFF_8000 else w < 0x1_0000)
    ensures w < 0x4000 ==> Widen(NarrowWord(w), signed) == w
  {
    NarrowBits(w);
    WidenBits(NarrowWord(w), signed);
    hide NarrowWord, Widen, Extended;
    ExtendedIs(w, NarrowWord(w) as bv32, signed);
  }

  lemma NarrowBits(w: Word)
    ensures NarrowWord(w) as bv32 == w & 0xFFFF
  {
  }

  /** A half-word, its sign extended on demand. */
  function Extended(x: Word, signed: bool): Word { if signed && x & 0x8000 != 0 then 0xFFFF_0000 | x else x }

  lemma WidenBits(h: Half, signed: bool)
    ensures Widen(h, signed) == Extended(h as bv32, signed)
  {
  }

  lemma ExtendedIs(w: Word, x: Word, signed: bool)
    requires x == w & 0xFFFF
    ensures Extended(x, signed) == w <==> w < 0x8000 || (if signed then w >= 0xFFFF_8000 else w < 0x1_0000)
    ensures w < 0x4000 ==> w < 0x8000
  {
  }

  // ---- The receive loop ----

  datatype Outcome = Complete | ServerError | ShapeError | TimedOut

  lemma RowFits(C: nat, L: nat, idx: nat, i: nat, size: nat)
    requires idx < C && (i + 1) * (C * L) <= size
    ensures 0 <= (i * C + idx) * L <= (i * C + idx) * L + L <= size && i * (C * L) <= size
  {
    RowEnd(i, C, idx, L);
    Distribute(i, 1, C * L);
    NotNegative(C, L);
    NotNegative(i, C);
    NotNegative(i * C + idx, L);
  }

  /** y[i, idx, :] of the payload reshaped to (count, C, L). */
  function Row(data: seq<Word>, C: nat, L: nat, idx: nat, i: nat): seq<Word>
    requires idx < C && (i + 1) * (C * L) <= |data|
  {
    RowFits(C, L, idx, i, |data|);
    data[(i * C + idx) * L..(i * C + idx) * L + L]
  }

  /** y[:, idx, :] of the payload, row by row. */
  function Column(data: seq<Word>, C: nat, L: nat, idx: nat, count: nat): seq<Word>
    requires idx < C && count * (C * L) <= |data|
  {
    if count == 0 then []
    else
      var i := count - 1;
      RowFits(C, L, idx, i, |data|);
      Column(data, C, L, idx, i) + Row(data, C, L, idx, i)
  }

  /** The files after the payload's columns for the first n listed channels were appended. */
  function AppendColumns(files: Files, channels: seq<nat>, data: seq<Word>, L: nat, count: nat, n: nat): (r: Files)
    requires n <= |channels| && count * (|channels| * L) <= |data|
    requires forall k :: 0 <= k < |channels| ==> channels[k] in files
    ensures r.Keys == files.Keys
  {
    if n == 0 then files
    else
      var before := AppendColumns(files, channels, data, L, count, n - 1);
      var ch := channels[n - 1];
      before[ch := before[ch] + Narrow(Column(data, |channels|, L, n - 1, count))]
  }

  /** What the loop does with a stream of responses: the files it leaves, the waveforms it counted
      and why it stopped. Running out of responses is a timeout. */
  function Received(files: Files, channels: seq<nat>, L: nat, stream: seq<Response>, written: nat): (Files, nat, Outcome)
    requires forall k :: 0 <= k < |channels| ==> channels[k] in files
  {
    if stream == [] then (files, written, TimedOut)
    else
      var chunk := stream[0];
      if !chunk.success then (files, written, ServerError)
      else if chunk.data != [] && |chunk.data| != chunk.count * (|channels| * L) then (files, written, ShapeError)
      else
        var files' := if chunk.data == [] then files
                      else AppendColumns(files, channels, chunk.data, L, chunk.count, |channels|);
        var written' := if chunk.data == [] then written else written + chunk.count;
        if chunk.isFinal then (files', written', Complete)
        else Received(files', channels, L, stream[1..], written')
  }

  class Acquisition {
    var files: Files
    var wfWritten: nat

    /** Opening the files: appending keeps what is on disk, writing starts afresh. */
    constructor (channels: seq<nat>, disk: Files, appendData: bool)
      ensures forall k :: 0 <= k < |channels| ==> channels[k] in files
      ensures forall ch :: ch in files ==>
                files[ch] == if appendData && ch in disk then disk[ch] else []
      ensures wfWritten == 0
    {
      var handles: Files := map[];
      for k := 0 to |channels|
        invariant forall i :: 0 <= i < k ==> channels[i] in handles
        invariant forall ch :: ch in handles ==>
                    handles[ch] == if appendData && ch in disk then disk[ch] else []
      {
        handles := handles[channels[k] := if appendData && channels[k] in disk then disk[channels[k]] else []];
      }
      files, wfWritten := handles, 0;
    }

    /** One payload, split over the files channel by channel. */
    method WriteChunk(channels: seq<nat>, L: nat, chunk: Response)
      requires forall k :: 0 <= k < |channels| ==> channels[k] in files
      requires |chunk.data| == chunk.count * (|channels| * L)
      modifies this
      ensures files == AppendColumns(old(files), channels, chunk.data, L, chunk.count, |channels|)
      ensures wfWritten == old(wfWritten) + chunk.count
    {
      hide Narrow, Column;
      for idx := 0 to |channels|
        invariant wfWritten == old(wfWritten)
        invariant files == AppendColumns(old(files), channels, chunk.data, L, chunk.count, idx)
      {
        var ch := channels[idx];
        files := files[ch := files[ch] + Narrow(Column(chunk.data, |channels|, L, idx, chunk.count))];
      }
      wfWritten := wfWritten + chunk.count;
    }

    method Receive(channels: seq<nat>, L: nat, stream: seq<Response>) returns (outcome: Outcome)
      requires forall k :: 0 <= k < |channels| ==> channels[k] in files
      modifies this
      ensures (files, wfWritten, outcome) == Received(old(files), channels, L, stream, old(wfWritten))
    {
      hide AppendColumns;
      ghost var all := Received(files, channels, L, stream, wfWritten);
      for t := 0 to |stream|
        invariant forall k :: 0 <= k < |channels| ==> channels[k] in files
        invariant Received(files, channels, L, stream[t..], wfWritten) == all
      {
        var chunk := stream[t];
        assert stream[t..][0] == chunk && stream[t..][1..] == stream[t + 1..];
        if !chunk.success {
          return ServerError;
        }
        if chunk.data != [] {
          if |chunk.data| != chunk.count * (|channels| * L) {
            return ShapeError;
          }
          WriteChunk(channels, L, chunk);
        }
        if chunk.isFinal {
          return Complete;
        }
      }
      outcome := TimedOut;
    }
  }

  // ---- What a planned stream leaves in the files ----

  /** Waveforms lo..hi of one PL channel, end to end. */
  function ChannelWaves(snap: Snapshots, pl: nat, L: Length, lo: nat, hi: nat): seq<Word>
    requires lo <= hi
    decreases hi - lo
  {
    if lo == hi then [] else ChannelWaves(snap, pl, L, lo, hi - 1) + Samples(snap(hi - 1, pl), L)
  }

  lemma ChannelWavesStep(snap: Snapshots, pl: nat, L: Length, lo: nat, hi: nat)
    requires lo <= hi
    ensures ChannelWaves(snap, pl, L, lo, lo) == []
    ensures ChannelWaves(snap, pl, L, lo, hi + 1) == ChannelWaves(snap, pl, L, lo, hi) + Samples(snap(hi, pl), L)
  {
  }

  lemma {:induction false} ChannelWavesSplit(snap: Snapshots, pl: nat, L: Length, lo: nat, mid: nat, hi: nat)
    requires lo <= mid <= hi
    ensures ChannelWaves(snap, pl, L, lo, mid) + ChannelWaves(snap, pl, L, mid, hi) == ChannelWaves(snap, pl, L, lo, hi)
    decreases hi - mid
  {
    hide *;
    ChannelWavesStep(snap, pl, L, mid, mid);
    if mid < hi {
      ChannelWavesSplit(snap, pl, L, lo, mid, hi - 1);
      ChannelWavesStep(snap, pl, L, lo, hi - 1);
      ChannelWavesStep(snap, pl, L, mid, hi - 1);
    }
  }

  lemma {:induction false} ChannelWavesLength(snap: Snapshots, pl: nat, L: Length, lo: nat, hi: nat)
    requires lo <= hi
    ensures |ChannelWaves(snap, pl, L, lo, hi)| == (hi - lo) * L
    decreases hi - lo
  {
    hide *;
    ChannelWavesStep(snap, pl, L, lo, lo);
    if lo < hi {
      ChannelWavesLength(snap, pl, L, lo, hi - 1);
      ChannelWavesStep(snap, pl, L, lo, hi - 1);
      Distribute(hi - 1 - lo, 1, L);
    }
  }

  lemma ColumnStep(data: seq<Word>, C: nat, L: nat, idx: nat, i: nat)
    requires idx < C && (i + 1) * (C * L) <= |data|
    ensures i * (C * L) <= |data|
    ensures Column(data, C, L, idx, i + 1) == Column(data, C, L, idx, i) + Row(data, C, L, idx, i)
  {
    hide Row;
    RowFits(C, L, idx, i, |data|);
  }

  lemma RowSpan(data: seq<Word>, C: nat, L: nat, idx: nat, i: nat) returns (at: nat)
    requires idx < C && (i + 1) * (C * L) <= |data|
    ensures at == (i * C + idx) * L && at + L <= |data| && Row(data, C, L, idx, i) == data[at..at + L]
  {
    RowFits(C, L, idx, i, |data|);
    at := (i * C + idx) * L;
  }

  lemma ColumnStart(data: seq<Word>, C: nat, L: nat, idx: nat)
    requires idx < C
    ensures 0 * (C * L) <= |data| && Column(data, C, L, idx, 0) == []
  {
  }

  lemma BlocksFit(snap: Snapshots, chans: seq<nat>, L: Length, lo: nat, hi: nat, count: nat)
    requires lo + count <= hi
    ensures count * (|chans| * L) <= |Waves(snap, chans, L, lo, hi)|
  {
    hide Waves;
    WavesLength(snap, chans, L, lo, hi);
    NotNegative(|chans|, L);
    ProductOrder(count, hi - lo, |chans| * L);
  }

  /** Demultiplexing undoes the server's interleaving: column idx of a block of waveforms is those
      waveforms of channel idx. */
  lemma {:induction false} ColumnOfWaves(snap: Snapshots, chans: seq<nat>, L: Length, lo: nat, hi: nat, idx: nat, count: nat)
    requires idx < |chans| && lo + count <= hi
    ensures count * (|chans| * L) <= |Waves(snap, chans, L, lo, hi)|
    ensures Column(Waves(snap, chans, L, lo, hi), |chans|, L, idx, count) == ChannelWaves(snap, chans[idx], L, lo, lo + count)
  {
    hide Waves, Samples, Column, Row, ChannelWaves;
    var data := Waves(snap, chans, L, lo, hi);
    BlocksFit(snap, chans, L, lo, hi, count);
    if count == 0 {
      ColumnStart(data, |chans|, L, idx);
      ChannelWavesStep(snap, chans[idx], L, lo, lo);
    } else {
      var i := count - 1;
      ColumnOfWaves(snap, chans, L, lo, hi, idx, i);
      var pre, post := WavesPlace(snap, chans, L, lo, hi, lo + i, idx);
      ColumnStep(data, |chans|, L, idx, i);
      var at := RowSpan(data, |chans|, L, idx, i);
      ChannelWavesStep(snap, chans[idx], L, lo, lo + i);
      var samples := Samples(snap(lo + i, chans[idx]), L);
      assert |pre| == at;
      assert data[at..at + L] == samples by { assert (pre + samples + post)[|pre|..|pre| + |samples|] == samples; }
    }
  }

  lemma NarrowAppend(a: seq<Word>, b: seq<Word>)
    ensures Narrow(a + b) == Narrow(a) + Narrow(b)
  {
    hide NarrowWord;
  }

  /** Channel idx of the list is not listed a second time. */
  ghost predicate ListedOnce(channels: seq<nat>, idx: nat)
    requires idx < |channels|
  {
    forall k :: 0 <= k < |channels| && k != idx ==> channels[k] != channels[idx]
  }

  lemma {:induction false} AppendColumnsAt(files: Files, channels: seq<nat>, data: seq<Word>, L: nat, count: nat, n: nat, idx: nat)
    requires n <= |channels| && count * (|channels| * L) <= |data| && idx < |channels| && ListedOnce(channels, idx)
    requires forall k :: 0 <= k < |channels| ==> channels[k] in files
    ensures AppendColumns(files, channels, data, L, count, n)[channels[idx]]
         == if idx < n then files[channels[idx]] + Narrow(Column(data, |channels|, L, idx, count)) else files[channels[idx]]
  {
    hide Narrow, Column;
    if n > 0 {
      AppendColumnsAt(files, channels, data, L, count, n - 1, idx);
    }
  }

  /** How many responses come before the first that reports failure. */
  function Successes(stream: seq<Response>): (r: nat)
    ensures r <= |stream|
  {
    if stream == [] || !stream[0].success then 0 else 1 + Successes(stream[1..])
  }

  ghost predicate AnnouncesFrom(snap: Snapshots, req: Req, n: nat, stream: seq<Response>) {
    forall i :: 0 <= i < |stream| ==> Announces(snap, req, n + i, stream[i])
  }

  /** What one planned response does to the file of channel idx. */
  lemma PlannedChunk(snap: Snapshots, req: Req, n: nat, r: Response, files: Files, idx: nat)
    requires n < Chunks(req) && Announces(snap, req, n, r)
    requires idx < |req.channels| && ListedOnce(req.channels, idx)
    requires forall k :: 0 <= k < |req.channels| ==> req.channels[k] in files
    ensures r.data != [] && |r.data| == r.count * (|req.channels| * req.L)
    ensures AppendColumns(files, req.channels, r.data, req.L, r.count, |req.channels|)[req.channels[idx]]
         == files[req.channels[idx]]
            + Narrow(ChannelWaves(snap, MapChannel(req.channels[idx]), req.L, Covered(req, n), Covered(req, n + 1)))
    ensures Covered(req, n) + r.count == Covered(req, n + 1)
    ensures r.isFinal <==> n + 1 == Chunks(req)
  {
    hide Waves, Chunks, NoWrap, Announces, Narrow, Column, AppendColumns, Covered, ChannelWaves, Min;
    var channels, L := req.channels, req.L;
    ResponseShape(snap, req, n, r);
    PlannedSize(snap, req, n, r);
    AppendColumnsAt(files, channels, r.data, L, r.count, |channels|, idx);
    assert Column(r.data, |channels|, L, idx, r.count)
        == ChannelWaves(snap, MapChannel(channels[idx]), L, Covered(req, n), Covered(req, n + 1)) by {
      ColumnOfWaves(snap, Mapped(channels), L, r.start, r.start + r.count, idx, r.count);
    }
  }

  lemma PlannedSize(snap: Snapshots, req: Req, n: nat, r: Response)
    requires n < Chunks(req) && Announces(snap, req, n, r)
    ensures r.data != [] && |r.data| == r.count * (|req.channels| * req.L)
  {
    hide Waves, Chunks, NoWrap, Announces, Covered, Min;
    ResponseShape(snap, req, n, r);
    WavesLength(snap, Mapped(req.channels), req.L, r.start, r.start + r.count);
    ProductPositive(r.count, |req.channels|, req.L);
  }

  lemma ProductPositive(a: nat, b: nat, c: nat)
    requires a > 0 && b > 0 && c > 0
    ensures a * (b * c) > 0
  {
  }

  lemma ResponseShape(snap: Snapshots, req: Req, n: nat, r: Response)
    requires n < Chunks(req) && Announces(snap, req, n, r)
    ensures r.start == Covered(req, n) && r.start + r.count == Covered(req, n + 1) && 1 <= r.count
    ensures r.data == Waves(snap, Mapped(req.channels), req.L, r.start, r.start + r.count)
    ensures r.isFinal <==> n + 1 == Chunks(req)
  {
    AnnouncedFields(snap, req, n, r);
    CoveredStep(snap, req, n);
    PacketData(snap, req, n);
    PlanTiles(snap, req, n);
    hide Waves, Chunks, NoWrap, Start, Covered, Mapped, Min, Planned, Announces;
  }

  /** After a stream of planned responses from number n on, the file of a listed channel has gained
      exactly the waveforms of the leading successful ones; the loop reports a server error if there is an
      unsuccessful one, and completion exactly when it got the last packet of the plan. */
  lemma {:induction false} ReceivePlanned(snap: Snapshots, req: Req, n: nat, stream: seq<Response>,
      files: Files, written: nat, idx: nat)
    requires n + |stream| <= Chunks(req) && AnnouncesFrom(snap, req, n, stream)
    requires idx < |req.channels| && ListedOnce(req.channels, idx)
    requires forall k :: 0 <= k < |req.channels| ==> req.channels[k] in files
    ensures var j, got := Successes(stream), Received(files, req.channels, req.L, stream, written);
      && Covered(req, n) <= Covered(req, n + j)
      && req.channels[idx] in got.0
      && got.0[req.channels[idx]] == files[req.channels[idx]]
           + Narrow(ChannelWaves(snap, MapChannel(req.channels[idx]), req.L, Covered(req, n), Covered(req, n + j)))
      && got.1 == written + Covered(req, n + j) - Covered(req, n)
      && got.2 == if j < |stream| then ServerError else if stream != [] && n + j == Chunks(req) then Complete else TimedOut
    decreases |stream|
  {
    hide Received, Narrow, ChannelWaves, Covered, AppendColumns, Announces, AnnouncesFrom, Chunks, NoWrap, Successes, Min, MapChannel;
    var pl := MapChannel(req.channels[idx]);
    ReceivedStops(files, req.channels, req.L, stream, written);
    ChannelWavesStep(snap, pl, req.L, Covered(req, n), Covered(req, n));
    if stream != [] && stream[0].success {
      var chunk, rest := stream[0], stream[1..];
      FirstAndRest(snap, req, n, stream);
      PlannedChunk(snap, req, n, chunk, files, idx);
      var files' := AppendColumns(files, req.channels, chunk.data, req.L, chunk.count, |req.channels|);
      ReceivedStep(files, req.channels, req.L, stream, written);
      SuccessesStep(stream);
      if chunk.isFinal {
        assert rest == [];
        SuccessesStep(rest);
      } else {
        ReceivePlanned(snap, req, n + 1, rest, files', written + chunk.count, idx);
        Join3(snap, pl, req, n, n + 1, n + 1 + Successes(rest));
      }
    }
  }

  lemma Join3(snap: Snapshots, pl: nat, req: Req, a: nat, b: nat, c: nat)
    requires Covered(req, a) <= Covered(req, b) <= Covered(req, c)
    ensures Narrow(ChannelWaves(snap, pl, req.L, Covered(req, a), Covered(req, b)))
          + Narrow(ChannelWaves(snap, pl, req.L, Covered(req, b), Covered(req, c)))
         == Narrow(ChannelWaves(snap, pl, req.L, Covered(req, a), Covered(req, c)))
  {
    hide Narrow, ChannelWaves, Covered, InRange;
    ChannelWavesSplit(snap, pl, req.L, Covered(req, a), Covered(req, b), Covered(req, c));
    NarrowAppend(ChannelWaves(snap, pl, req.L, Covered(req, a), Covered(req, b)),
                 ChannelWaves(snap, pl, req.L, Covered(req, b), Covered(req, c)));
  }

  lemma ReceivedStops(files: Files, channels: seq<nat>, L: nat, stream: seq<Response>, written: nat)
    requires forall k :: 0 <= k < |channels| ==> channels[k] in files
    ensures Narrow([]) == []
    ensures stream == [] || !stream[0].success ==>
      && Received(files, channels, L, stream, written) == (files, written, if stream == [] then TimedOut else ServerError)
      && Successes(stream) == 0
  {
  }

  lemma FirstAndRest(snap: Snapshots, req: Req, n: nat, stream: seq<Response>)
    requires AnnouncesFrom(snap, req, n, stream) && stream != []
    ensures Announces(snap, req, n, stream[0]) && AnnouncesFrom(snap, req, n + 1, stream[1..])
  {
    hide Announces;
    assert Announces(snap, req, n + 0, stream[0]);
    forall i | 0 <= i < |stream| - 1
      ensures Announces(snap, req, n + 1 + i, stream[1..][i])
    {
      assert Announces(snap, req, n + (i + 1), stream[i + 1]);
    }
  }

  lemma ReceivedStep(files: Files, channels: seq<nat>, L: nat, stream: seq<Response>, written: nat)
    requires forall k :: 0 <= k < |channels| ==> channels[k] in files
    requires stream != [] && stream[0].success && stream[0].data != []
    requires |stream[0].data| == stream[0].count * (|channels| * L)
    ensures var chunk := stream[0];
            var files' := AppendColumns(files, channels, chunk.data, L, chunk.count, |channels|);
            Received(files, channels, L, stream, written)
            == if chunk.isFinal then (files', written + chunk.count, Complete)
               else Received(files', channels, L, stream[1..], written + chunk.count)
  {
    hide AppendColumns;
  }

  lemma SuccessesStep(stream: seq<Response>)
    ensures stream == [] ==> Successes(stream) == 0
    ensures stream != [] && stream[0].success ==> Successes(stream) == 1 + Successes(stream[1..])
  {
  }

  /** Data that do not make up count waveforms of each listed channel. */
  predicate Misshapen(channels: seq<nat>, L: nat, r: Response) {
    r.data != [] && |r.data| != r.count * (|channels| * L)
  }

  /** The loop takes the response and asks for another. */
  predicate GoesOn(channels: seq<nat>, L: nat, r: Response) {
    r.success && !Misshapen(channels, L, r) && !r.isFinal
  }

  lemma ReceivedOn(files: Files, channels: seq<nat>, L: nat, stream: seq<Response>, written: nat) returns (files': Files)
    requires forall c :: 0 <= c < |channels| ==> channels[c] in files
    requires stream != [] && GoesOn(channels, L, stream[0])
    ensures files'.Keys == files.Keys
    ensures forall c :: 0 <= c < |channels| ==> channels[c] in files'
    ensures Received(files, channels, L, stream, written)
         == Received(files', channels, L, stream[1..], written + Stored(stream[0]))
  {
    hide AppendColumns;
    var chunk := stream[0];
    files' := if chunk.data == [] then files
              else AppendColumns(files, channels, chunk.data, L, chunk.count, |channels|);
  }

  lemma ReceivedHere(files: Files, channels: seq<nat>, L: nat, stream: seq<Response>, written: nat)
    requires forall c :: 0 <= c < |channels| ==> channels[c] in files
    requires stream == [] || !GoesOn(channels, L, stream[0])
    ensures var got := Received(files, channels, L, stream, written);
      && got.2 == (if stream == [] then TimedOut
                   else if !stream[0].success then ServerError
                   else if Misshapen(channels, L, stream[0]) then ShapeError
                   else Complete)
      && got.1 == written + (if got.2 == Complete then Stored(stream[0]) else 0)
      && got.0.Keys == files.Keys
  {
    hide AppendColumns;
  }

  /** Why the loop ended, for any stream: it reads up to the first response that fails, that cannot be reshaped or
      that is final, and says which; it counts the waveforms of those it stored. */
  lemma {:induction false} WhyItStopped(files: Files, channels: seq<nat>, L: nat, stream: seq<Response>, written: nat) returns (k: nat)
    requires forall c :: 0 <= c < |channels| ==> channels[c] in files
    ensures k <= |stream|
    ensures forall i :: 0 <= i < k ==> stream[i].success && !Misshapen(channels, L, stream[i]) && !stream[i].isFinal
    ensures var got := Received(files, channels, L, stream, written);
      && got.2 == (if k == |stream| then TimedOut
                   else if !stream[k].success then ServerError
                   else if stream[k].data != [] && |stream[k].data| != stream[k].count * (|channels| * L) then ShapeError
                   else Complete)
      && (got.2 == Complete ==> stream[k].isFinal)
      && got.1 == written + Counted(stream[..if got.2 == Complete then k + 1 else k])
      && got.0.Keys == files.Keys
    decreases |stream|
  {
    hide Received, Counted;
    if stream == [] || !GoesOn(channels, L, stream[0]) {
      k := 0;
      ReceivedHere(files, channels, L, stream, written);
      CountedStep(stream[..0]);
      if stream != [] {
        CountedStep(stream[..1]);
        assert stream[..1][1..] == [];
      }
    } else {
      var rest, written' := stream[1..], written + Stored(stream[0]);
      var files' := ReceivedOn(files, channels, L, stream, written);
      var k' := WhyItStopped(files', channels, L, rest, written');
      k := k' + 1;
      var n := if Received(files', channels, L, rest, written').2 == Complete then k' + 1 else k';
      assert stream[..n + 1][1..] == rest[..n];
      CountedStep(stream[..n + 1]);
      forall i | 0 <= i < k
        ensures GoesOn(channels, L, stream[i])
      {
        assert i > 0 ==> stream[i] == rest[i - 1];
      }
    }
  }

  /** The waveforms a response is counted for: none if it carries no data. */
  function Stored(r: Response): nat { if r.data == [] then 0 else r.count }

  /** The waveforms announced by the responses that carry data. */
  function Counted(stream: seq<Response>): nat {
    if stream == [] then 0 else Stored(stream[0]) + Counted(stream[1..])
  }

  lemma CountedStep(stream: seq<Response>)
    ensures Counted([]) == 0
    ensures stream != [] ==> Counted(stream) == Stored(stream[0]) + Counted(stream[1..])
  {
  }

  // ---- Reading the files back ----

  datatype Loaded = Loaded(waves: seq<seq<Word>>) | NotDivisible

  /** load_channel_waves; a negative or zero maxWaves asks for all. */
  function LoadChannelWaves(raw: seq<Half>, L: nat, maxWaves: int, signed: bool): Loaded
    requires L > 0
  {
    if |raw| % L != 0 then NotDivisible
    else
      var total := |raw| / L;
      var use := if maxWaves <= 0 then total else if total < maxWaves then total else maxWaves;
      Loaded(seq(use, w requires 0 <= w < use => WaveAt(raw, L, w, signed)))
  }

  function WaveAt(raw: seq<Half>, L: nat, w: nat, signed: bool): (r: seq<Word>)
    requires L > 0 && w < |raw| / L
    ensures |r| == L
  {
    InRow(|raw|, L, w);
    seq(L, i requires 0 <= i < L => Widen(raw[w * L + i], signed))
  }

  lemma InRow(size: nat, L: nat, w: nat)
    requires L > 0 && w < size / L
    ensures 0 <= w * L <= w * L + L <= size
  {
    assert size == size / L * L + size % L;
    Distribute(w + 1, size / L - w - 1, L);
    Distribute(w, 1, L);
    assert 0 <= (size / L - w - 1) * L;
  }

  /** The samples of one PL channel, waveform by waveform: what a client wants to end up with. */
  function AllSamples(snap: Snapshots, pl: nat, L: Length, N: nat): seq<seq<Word>> {
    seq(N, w requires 0 <= w < N => Samples(snap(w, pl), L))
  }

  /** What a value of a file is read as: itself, or its two's complement if it is read signed. */
  lemma WidenMeaning(h: Half, signed: bool)
    ensures !signed || h < 0x8000 ==> Widen(h, signed) == h as bv32
    ensures signed && h >= 0x8000 ==> Widen(h, signed) + 0x1_0000 == h as bv32 && Widen(h, signed) >= 0xFFFF_8000
  {
  }

  /** row is the w-th stretch of L values of the file, as they are read. */
  ghost predicate IsRow(row: seq<Word>, raw: seq<Half>, L: nat, w: nat, signed: bool) {
    && |row| == L && 0 <= w * L <= w * L + L <= |raw|
    && forall i :: 0 <= i < L ==> row[i] == Widen(raw[w * L + i], signed)
  }

  lemma WaveIsRow(raw: seq<Half>, L: nat, w: nat, signed: bool)
    requires L > 0 && w < |raw| / L
    ensures IsRow(WaveAt(raw, L, w, signed), raw, L, w, signed)
  {
    hide Widen;
    InRow(|raw|, L, w);
  }

  /** Any file: it is refused exactly if it does not hold whole waveforms; otherwise the first maxWaves are read, or
      all of them if there are fewer or none is asked for, value by value. */
  lemma LoadedIs(raw: seq<Half>, L: nat, maxWaves: int, signed: bool)
    requires L > 0
    ensures LoadChannelWaves(raw, L, maxWaves, signed).NotDivisible? <==> |raw| % L != 0
    ensures |raw| % L == 0 ==>
              var waves := LoadChannelWaves(raw, L, maxWaves, signed).waves;
              && |waves| == (if 0 < maxWaves < |raw| / L then maxWaves else |raw| / L)
              && forall w: nat :: w < |waves| ==> IsRow(waves[w], raw, L, w, signed)
  {
    hide IsRow, WaveAt;
    forall w: nat | w < |raw| / L
      ensures IsRow(WaveAt(raw, L, w, signed), raw, L, w, signed)
    {
      WaveIsRow(raw, L, w, signed);
    }
  }

  /** A file holding waveforms 0 .. N of a channel loads as exactly those 14-bit samples, in order, read signed or
      unsigned; a smaller number asked for gets that many of the first. */
  lemma LoadOfChannelWaves(snap: Snapshots, pl: nat, L: Length, N: nat, maxWaves: int, signed: bool)
    requires L > 0
    ensures LoadChannelWaves(Narrow(ChannelWaves(snap, pl, L, 0, N)), L, maxWaves, signed)
         == Loaded(AllSamples(snap, pl, L, if 0 < maxWaves < N then maxWaves else N))
  {
    var all := ChannelWaves(snap, pl, L, 0, N);
    ChannelWavesLength(snap, pl, L, 0, N);
    ExactDivision(N, L);
    forall w: nat | w < N
      ensures WaveAt(Narrow(all), L, w, signed) == Samples(snap(w, pl), L)
    {
      WaveOfChannelWaves(snap, pl, L, N, w, signed);
    }
  }

  lemma WaveOfChannelWaves(snap: Snapshots, pl: nat, L: Length, N: nat, w: nat, signed: bool)
    requires L > 0 && w < N && |ChannelWaves(snap, pl, L, 0, N)| == N * L && N * L / L == N
    ensures WaveAt(Narrow(ChannelWaves(snap, pl, L, 0, N)), L, w, signed) == Samples(snap(w, pl), L)
  {
    hide *;
    var all, row := ChannelWaves(snap, pl, L, 0, N), Samples(snap(w, pl), L);
    ChannelWavesSplit(snap, pl, L, 0, w + 1, N);
    ChannelWavesStep(snap, pl, L, 0, w);
    ChannelWavesLength(snap, pl, L, 0, w);
    var pre, post := ChannelWaves(snap, pl, L, 0, w), ChannelWaves(snap, pl, L, w + 1, N);
    assert all == pre + row + post;
    RowReadsBack(pre, row, post, L, w, signed) by { SamplesAre14Bit(snap(w, pl), L); }
  }

  lemma SamplesAre14Bit(src: seq<Word>, n: nat)
    requires (n + 1) / 2 <= |src|
    ensures forall x :: x in Samples(src, n) ==> x < 0x4000
  {
  }

  lemma RowReadsBack(pre: seq<Word>, row: seq<Word>, post: seq<Word>, L: nat, w: nat, signed: bool)
    requires L > 0 && |pre| == w * L && |row| == L && w < |pre + row + post| / L
    requires forall x :: x in row ==> x < 0x4000
    ensures WaveAt(Narrow(pre + row + post), L, w, signed) == row
  {
    hide NarrowWord, Widen;
    var raw := Narrow(pre + row + post);
    InRow(|raw|, L, w);
    forall i | 0 <= i < L
      ensures Widen(raw[w * L + i], signed) == row[i]
    {
      assert raw[|pre| + i] == NarrowWord(row[i]);
      assert row[i] in row;
      NarrowingIsLossless(row[i], signed);
    }
  }

  // ---- End to end ----

  /** A loop that has stopped for a reason has stopped: what comes later is not looked at. */
  lemma {:induction false} ReceivedDecided(files: Files, channels: seq<nat>, L: nat, stream: seq<Response>, written: nat, k: nat)
    requires k <= |stream| && forall c :: 0 <= c < |channels| ==> channels[c] in files
    requires Received(files, channels, L, stream[..k], written).2 != TimedOut
    ensures Received(files, channels, L, stream, written) == Received(files, channels, L, stream[..k], written)
    decreases k
  {
    hide AppendColumns;
    var chunk := stream[0];
    if GoesOn(channels, L, chunk) {
      var files' := if chunk.data == [] then files
                    else AppendColumns(files, channels, chunk.data, L, chunk.count, |channels|);
      assert stream[..k][1..] == stream[1..][..k - 1];
      ReceivedDecided(files', channels, L, stream[1..], written + Stored(chunk), k - 1);
    }
  }

  /** All planned responses have been sent, and well. */
  ghost predicate Delivered(req: Req, s: State) {
    |s.sent| >= Chunks(req) && forall i :: 0 <= i < Chunks(req) ==> s.sent[i].success
  }

  lemma ReceivedDelivered(snap: Snapshots, req: Req, capacity: nat, s: State, files: Files, idx: nat)
    requires Reachable(snap, req, capacity, s) && Delivered(req, s)
    requires idx < |req.channels| && ListedOnce(req.channels, idx)
    requires forall k :: 0 <= k < |req.channels| ==> req.channels[k] in files && files[req.channels[k]] == []
    ensures var got := Received(files, req.channels, req.L, s.sent, 0);
      && got.2 == Complete && got.1 == req.N
      && req.channels[idx] in got.0
      && got.0[req.channels[idx]] == Narrow(ChannelWaves(snap, MapChannel(req.channels[idx]), req.L, 0, req.N))
  {
    hide Received, Narrow, ChannelWaves, Covered, AnnouncesFrom, Chunks, Successes, Min, MapChannel, Reachable;
    StreamAnnounces(snap, req, capacity, s);
    HeadAnnounces(snap, req, s.sent, Chunks(req));
    var head := s.sent[..Chunks(req)];
    AllSuccessful(head);
    CeilingDivision(req);
    ReceivePlanned(snap, req, 0, head, files, 0, idx);
    AllCovered(req);
    CoveredZero(req);
    ReceivedDecided(files, req.channels, req.L, s.sent, 0, Chunks(req));
    var data := Narrow(ChannelWaves(snap, MapChannel(req.channels[idx]), req.L, 0, req.N));
    assert [] + data == data;
  }

  /** The whole path. However producer and consumer interleaved, as soon as the planned responses are out,
      the receive loop completes with all N waveforms counted, and the file of every listed channel loads as
      exactly the 14-bit samples of that channel, in order, signed or unsigned. This asks nothing of the
      producer afterwards: its loop may have wrapped and go on for ever. */
  lemma RoundTrip(snap: Snapshots, req: Req, capacity: nat, s: State, files: Files, idx: nat, signed: bool)
    requires Reachable(snap, req, capacity, s) && Delivered(req, s)
    requires idx < |req.channels| && ListedOnce(req.channels, idx)
    requires forall k :: 0 <= k < |req.channels| ==> req.channels[k] in files && files[req.channels[k]] == []
    ensures var got := Received(files, req.channels, req.L, s.sent, 0);
      && got.2 == Complete && got.1 == req.N
      && req.channels[idx] in got.0
      && LoadChannelWaves(got.0[req.channels[idx]], req.L, 0, signed)
         == Loaded(AllSamples(snap, MapChannel(req.channels[idx]), req.L, req.N))
  {
    hide Received, Narrow, ChannelWaves, Chunks, MapChannel, Reachable, Delivered, ListedOnce, LoadChannelWaves, AllSamples;
    ReceivedDelivered(snap, req, capacity, s, files, idx);
    LoadOfChannelWaves(snap, MapChannel(req.channels[idx]), req.L, req.N, 0, signed);
  }

  /** A fault-free request that has returned has delivered. */
  lemma ReturnedMeansDelivered(snap: Snapshots, req: Req, capacity: nat, s: State)
    requires Reachable(snap, req, capacity, s) && s.consumer.Returned? && !s.hadError
    ensures Delivered(req, s)
  {
    FaultFreeSendsAll(snap, req, capacity, s);
    hide Reachable, Chunks;
  }

  // ---- A channel listed twice ----

  /** How often ch is among the first n listed channels. */
  function Occurrences(channels: seq<nat>, ch: nat, n: nat): nat
    requires n <= |channels|
  {
    if n == 0 then 0 else Occurrences(channels, ch, n - 1) + (if channels[n - 1] == ch then 1 else 0)
  }

  lemma {:induction false} ListedMeansOccurs(channels: seq<nat>, idx: nat, n: nat)
    requires idx < n <= |channels|
    ensures Occurrences(channels, channels[idx], n) >= 1
    ensures (exists k :: 0 <= k < n && k != idx && channels[k] == channels[idx]) ==> Occurrences(channels, channels[idx], n) >= 2
  {
    if n - 1 == idx {
      forall k | 0 <= k < n && k != idx && channels[k] == channels[idx]
        ensures Occurrences(channels, channels[idx], n) >= 2
      {
        ListedMeansOccurs(channels, k, n - 1);
      }
    } else {
      ListedMeansOccurs(channels, idx, n - 1);
    }
  }

  lemma {:induction false} ColumnLength(data: seq<Word>, C: nat, L: nat, idx: nat, count: nat)
    requires idx < C && count * (C * L) <= |data|
    ensures |Column(data, C, L, idx, count)| == count * L
  {
    if count > 0 {
      hide Column, Row;
      ColumnStep(data, C, L, idx, count - 1);
      var _ := RowSpan(data, C, L, idx, count - 1);
      ColumnLength(data, C, L, idx, count - 1);
      Distribute(count - 1, 1, L);
    }
  }

  lemma {:induction false} AppendedLength(files: Files, channels: seq<nat>, data: seq<Word>, L: nat, count: nat, n: nat, ch: nat)
    requires n <= |channels| && count * (|channels| * L) <= |data|
    requires forall k :: 0 <= k < |channels| ==> channels[k] in files
    requires ch in files
    ensures |AppendColumns(files, channels, data, L, count, n)[ch]|
         == |files[ch]| + Occurrences(channels, ch, n) * (count * L)
  {
    if n > 0 {
      hide Narrow, Column;
      AppendedLength(files, channels, data, L, count, n - 1, ch);
      var grown := |Column(data, |channels|, L, n - 1, count)|;
      assert grown == count * L by { ColumnLength(data, |channels|, L, n - 1, count); }
      var before := Occurrences(channels, ch, n - 1);
      assert (before + 1) * grown == before * grown + grown by { Distribute(before, 1, grown); }
    }
  }

  /** A complete successful stream adds, for every time a channel is listed, as many values as its
      waveforms have. */
  lemma {:induction false} ReceivedLength(snap: Snapshots, req: Req, n: nat, stream: seq<Response>,
      files: Files, written: nat, ch: nat)
    requires n + |stream| == Chunks(req) && AnnouncesFrom(snap, req, n, stream)
    requires forall i :: 0 <= i < |stream| ==> stream[i].success
    requires forall k :: 0 <= k < |req.channels| ==> req.channels[k] in files
    requires ch in files
    ensures Covered(req, n) <= req.N
    ensures stream != [] ==> Received(files, req.channels, req.L, stream, written).2 == Complete
    ensures var got := Received(files, req.channels, req.L, stream, written).0;
            ch in got
            && |got[ch]| == |files[ch]| + Occurrences(req.channels, ch, |req.channels|) * ((req.N - Covered(req, n)) * req.L)
    decreases |stream|
  {
    hide Chunks, NoWrap, Announces, AppendColumns, Covered, Occurrences, Min, Received, Waves;
    var channels, L, occ := req.channels, req.L, Occurrences(req.channels, ch, |req.channels|);
    AllCovered(req);
    if stream == [] {
      ReceivedStops(files, channels, L, stream, written);
      Distribute(0, 0, occ);
      assert occ * (0 * L) == 0;
    } else {
      var chunk, rest := stream[0], stream[1..];
      FirstAndRest(snap, req, n, stream);
      ResponseShape(snap, req, n, chunk);
      PlannedSize(snap, req, n, chunk);
      ReceivedStep(files, channels, L, stream, written);
      AppendedLength(files, channels, chunk.data, L, chunk.count, |channels|, ch);
      var files' := AppendColumns(files, channels, chunk.data, L, chunk.count, |channels|);
      if !chunk.isFinal {
        ReceivedLength(snap, req, n + 1, rest, files', written + chunk.count, ch);
        SumOfProducts(occ, chunk.count, req.N - Covered(req, n + 1), L);
      }
    }
  }

  lemma SumOfProducts(a: int, b: int, c: int, m: int)
    ensures a * (b * m) + a * (c * m) == a * ((b + c) * m)
  {
    Distribute(b, c, m);
  }

  /** The channel list matters: from fresh files, the file of a listed channel loads as that channel's N
      waveforms exactly when the channel is listed once. Listed m times, it holds m*N waveforms. */
  lemma RoundTripIffListedOnce(snap: Snapshots, req: Req, capacity: nat, s: State, files: Files, idx: nat, signed: bool)
    requires Reachable(snap, req, capacity, s) && Delivered(req, s)
    requires idx < |req.channels|
    requires forall k :: 0 <= k < |req.channels| ==> req.channels[k] in files && files[req.channels[k]] == []
    ensures req.channels[idx] in Received(files, req.channels, req.L, s.sent, 0).0
    ensures LoadChannelWaves(Received(files, req.channels, req.L, s.sent, 0).0[req.channels[idx]], req.L, 0, signed)
         == Loaded(AllSamples(snap, MapChannel(req.channels[idx]), req.L, req.N))
        <==> ListedOnce(req.channels, idx)
  {
    hide Received, Narrow, ChannelWaves, Covered, AnnouncesFrom, Chunks, Min, MapChannel, Reachable, WaveAt, Occurrences;
    if ListedOnce(req.channels, idx) {
      RoundTrip(snap, req, capacity, s, files, idx, signed);
    } else {
      var ch := req.channels[idx];
      StreamAnnounces(snap, req, capacity, s);
      HeadAnnounces(snap, req, s.sent, Chunks(req));
      var head := s.sent[..Chunks(req)];
      CeilingDivision(req);
      ReceivedLength(snap, req, 0, head, files, 0, ch);
      ReceivedDecided(files, req.channels, req.L, s.sent, 0, Chunks(req));
      CoveredZero(req);
      ListedMeansOccurs(req.channels, idx, |req.channels|);
      var raw := Received(files, req.channels, req.L, s.sent, 0).0[ch];
      TooManyWaves(raw, Occurrences(req.channels, ch, |req.channels|), req.N, req.L, signed);
    }
  }

  lemma TooManyWaves(raw: seq<Half>, m: nat, N: nat, L: nat, signed: bool)
    requires |raw| == m * (N * L) && m >= 2 && N > 0 && L > 0
    ensures LoadChannelWaves(raw, L, 0, signed).Loaded? && |LoadChannelWaves(raw, L, 0, signed).waves| > N
  {
    hide WaveAt;
    assert m * (N * L) == (m * N) * L;
    ExactDivision(m * N, L);
    WholeStep(1, m, N);
  }

  lemma StreamAnnounces(snap: Snapshots, req: Req, capacity: nat, s: State)
    requires Reachable(snap, req, capacity, s)
    ensures AnnouncesFrom(snap, req, 0, s.sent)
    ensures NoWrap(req) ==> |s.sent| <= Chunks(req)
  {
    SentAnnounces(snap, req, capacity, s);
    hide Reachable, NoWrap, Chunks, Announces;
  }

  lemma HeadAnnounces(snap: Snapshots, req: Req, stream: seq<Response>, k: nat)
    requires AnnouncesFrom(snap, req, 0, stream) && k <= |stream|
    ensures AnnouncesFrom(snap, req, 0, stream[..k])
  {
    hide Announces;
    forall i | 0 <= i < k
      ensures Announces(snap, req, 0 + i, stream[..k][i])
    {
      assert Announces(snap, req, 0 + i, stream[i]);
    }
  }

  lemma {:induction false} AllSuccessful(stream: seq<Response>)
    requires forall i :: 0 <= i < |stream| ==> stream[i].success
    ensures Successes(stream) == |stream|
  {
    if stream != [] {
      AllSuccessful(stream[1..]);
    }
  }

  /** When the producer fails, at whatever point, what the client has is still a clean prefix: the
      first waveforms of each channel, whole chunks of them, fewer than all, and no false completion. It hears of a
      server error if any response went out afterwards, and otherwise waits in vain. */
  lemma FaultLeavesPrefix(snap: Snapshots, req: Req, capacity: nat, s: State, files: Files, idx: nat) returns (j: nat)
    requires NoWrap(req) && Reachable(snap, req, capacity, s) && s.hadError
    requires idx < |req.channels| && ListedOnce(req.channels, idx)
    requires forall k :: 0 <= k < |req.channels| ==> req.channels[k] in files
    ensures j < Chunks(req)
    ensures var got := Received(files, req.channels, req.L, s.sent, 0);
      && got.2 == (if exists i :: 0 <= i < |s.sent| && !s.sent[i].success then ServerError else TimedOut)
      && got.1 == Covered(req, j) < req.N
      && req.channels[idx] in got.0
      && got.0[req.channels[idx]]
         == files[req.channels[idx]] + Narrow(ChannelWaves(snap, MapChannel(req.channels[idx]), req.L, 0, Covered(req, j)))
  {
    hide Received, Narrow, ChannelWaves, Covered, AnnouncesFrom, Chunks, NoWrap, Successes, Min, MapChannel, Reachable;
    FaultSendsStrictPrefix(snap, req, capacity, s);
    StreamAnnounces(snap, req, capacity, s);
    ReceivePlanned(snap, req, 0, s.sent, files, 0, idx);
    CoveredZero(req);
    j := Successes(s.sent);
    FirstFailure(s.sent);
    SomeNotCovered(req, j);
  }

  /** The same seen along a run: the client keeps exactly the chunks sent before the fault, and is told of a server
      error exactly if a response was sent after it. This holds of any request, as long as the fault comes before
      the planned responses are out; if it comes later, RoundTrip says what the client has. */
  lemma FaultCutsHere(snap: Snapshots, req: Req, capacity: nat, states: seq<State>, actions: seq<Action>,
                      fault: nat, now: nat, files: Files, idx: nat)
    requires Run(snap, req, capacity, states, actions) && fault < now <= |actions| && actions[fault].Throw?
    requires |states[fault].sent| < Chunks(req)
    requires idx < |req.channels| && ListedOnce(req.channels, idx)
    requires forall k :: 0 <= k < |req.channels| ==> req.channels[k] in files
    ensures var j := |states[fault].sent|;
            var got := Received(files, req.channels, req.L, states[now].sent, 0);
      && got.2 == (if |states[now].sent| > j then ServerError else TimedOut)
      && got.1 == j * req.chunk
      && req.channels[idx] in got.0
      && got.0[req.channels[idx]]
         == files[req.channels[idx]] + Narrow(ChannelWaves(snap, MapChannel(req.channels[idx]), req.L, 0, j * req.chunk))
  {
    hide Received, Narrow, ChannelWaves, Covered, AnnouncesFrom, Chunks, Successes, Min, MapChannel, Next;
    var j, stream := |states[fault].sent|, states[now].sent;
    SuccessIffBeforeFault(snap, req, capacity, states, actions, fault, now);
    RunReaches(snap, req, capacity, states, actions, now);
    StreamAnnounces(snap, req, capacity, states[now]);
    var head := stream[..if |stream| > j then j + 1 else j];
    HeadAnnounces(snap, req, stream, |head|);
    SuccessesAre(head, j);
    ReceivePlanned(snap, req, 0, head, files, 0, idx);
    CoveredZero(req);
    CoveredIs(req, j);
    if |stream| > j {
      ReceivedDecided(files, req.channels, req.L, stream, 0, |head|);
    } else {
      assert head == stream;
    }
  }

  lemma RunReaches(snap: Snapshots, req: Req, capacity: nat, states: seq<State>, actions: seq<Action>, now: nat)
    requires Run(snap, req, capacity, states, actions) && now <= |actions|
    ensures Reachable(snap, req, capacity, states[now])
  {
    hide Next;
    var front, acts := states[..now + 1], actions[..now];
    assert Run(snap, req, capacity, front, acts) && front[|acts|] == states[now];
  }

  lemma {:induction false} SuccessesAre(stream: seq<Response>, j: nat)
    requires j <= |stream| && forall i :: 0 <= i < |stream| ==> (stream[i].success <==> i < j)
    ensures Successes(stream) == j
  {
    if j > 0 {
      SuccessesAre(stream[1..], j - 1);
    }
  }

  lemma {:induction false} FirstFailure(stream: seq<Response>)
    ensures Successes(stream) < |stream| <==> exists i :: 0 <= i < |stream| && !stream[i].success
  {
    if stream != [] && stream[0].success {
      FirstFailure(stream[1..]);
      if Successes(stream[1..]) < |stream[1..]| {
        var i :| 0 <= i < |stream[1..]| && !stream[1..][i].success;
        assert !stream[i + 1].success;
      }
    }
  }

  lemma CoveredIs(req: Req, j: nat)
    requires j < Chunks(req)
    ensures Covered(req, j) == j * req.chunk < req.N
  {
    StartIsProduct(req, j);
  }

  lemma SomeNotCovered(req: Req, j: nat)
    requires j < Chunks(req)
    ensures Covered(req, j) < req.N
  {
    StartIsProduct(req, j);
  }
}
