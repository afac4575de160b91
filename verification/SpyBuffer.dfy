/** The spy-buffer sample extractors (srcs/SpyBuffer.cpp, srcs/SpyBuffer.hpp).
    A memory word carries two 14-bit samples: DATAL in bits 2..15 and DATAH in bits 18..31. */
module SpyBuffer {

  import BitField
  import FpgaRegDict
  import opened Wrappers

  type Word = bv32

  function DataL(w: Word): Word { (w >> 2) & 0x3FFF }

  function DataH(w: Word): Word { (w >> 18) & 0x3FFF }

  /** getMappedData: sample k of a channel whose mapped words are src. */
  function MappedData(src: seq<Word>, k: nat): (r: Word)
    requires k / 2 < |src|
    ensures r < 0x4000
  {
    var shift: Word := 2 + 16 * (if k % 2 == 1 then 1 else 0);
    (src[k / 2] >> shift) & 0x3FFF
  }

  lemma DataFields(w: Word)
    ensures DataL(w) == BitField.Get(w, 2, 15) && DataH(w) == BitField.Get(w, 18, 31)
  {
  }

  lemma DataRanges(afe: nat, ch: nat)
    ensures var fields := FpgaRegDict.FieldsOf(FpgaRegDict.SpyBuffer(afe, ch));
      && FpgaRegDict.Find(fields, FpgaRegDict.DATAL) == Some(FpgaRegDict.Range(2, 15))
      && FpgaRegDict.Find(fields, FpgaRegDict.DATAH) == Some(FpgaRegDict.Range(18, 31))
  {
  }

  lemma SampleOfWord(src: seq<Word>, i: nat)
    requires i < |src|
    ensures MappedData(src, 2 * i) == DataL(src[i]) && MappedData(src, 2 * i + 1) == DataH(src[i])
  {
    assert 2 * i % 2 == 0 && 2 * i / 2 == i && (2 * i + 1) % 2 == 1 && (2 * i + 1) / 2 == i;
  }

  /** An even sample is the DATAL field of its word and an odd one the DATAH field, where the register dictionary
      places them in a spy buffer. */
  lemma SampleIsField(src: seq<Word>, k: nat, afe: nat, ch: nat)
    requires k / 2 < |src|
    ensures var fields := FpgaRegDict.FieldsOf(FpgaRegDict.SpyBuffer(afe, ch));
            var range := FpgaRegDict.Find(fields, if k % 2 == 0 then FpgaRegDict.DATAL else FpgaRegDict.DATAH);
      && range.Some? && range.value.low <= range.value.high < 32
      && MappedData(src, k) == BitField.Get(src[k / 2], range.value.low, range.value.high)
  {
    hide *;
    assert k == 2 * (k / 2) || k == 2 * (k / 2) + 1;
    DataRanges(afe, ch);
    DataFields(src[k / 2]);
    SampleOfWord(src, k / 2);
  }

  /** The first n samples of a channel, one after the other. */
  function Samples(src: seq<Word>, n: nat): (r: seq<Word>)
    requires (n + 1) / 2 <= |src|
    ensures |r| == n
  {
    seq(n, k requires 0 <= k < n => MappedData(src, k))
  }

  /** Words lo..hi of src have been unpacked into dst, two samples each. */
  ghost predicate Unpacked(dst: array<Word>, base: nat, src: seq<Word>, lo: nat, hi: nat)
    requires hi <= |src| && base + 2 * hi <= dst.Length
    reads dst
  {
    forall i :: lo <= i < hi ==> dst[base + 2 * i] == DataL(src[i]) && dst[base + 2 * i + 1] == DataH(src[i])
  }

  /** dst with the n samples of src written at base. */
  ghost function Written(dst: seq<Word>, base: nat, src: seq<Word>, n: nat): seq<Word>
    requires (n + 1) / 2 <= |src| && base + n <= |dst|
  {
    dst[..base] + Samples(src, n) + dst[base + n..]
  }

  /** Unpacked words, the odd tail and an untouched rest are together the n samples in place. */
  lemma UnpackedIsWritten(before: seq<Word>, dst: array<Word>, base: nat, src: seq<Word>, n: nat)
    requires (n + 1) / 2 <= |src| && base + n <= dst.Length == |before|
    requires Unpacked(dst, base, src, 0, n / 2)
    requires n % 2 == 1 ==> dst[base + n - 1] == DataL(src[n / 2])
    requires forall p :: 0 <= p < dst.Length && !(base <= p < base + n) ==> dst[p] == before[p]
    ensures dst[..] == Written(before, base, src, n)
  {
    forall k | 0 <= k < n
      ensures dst[base + k] == MappedData(src, k)
    {
      if k / 2 < n / 2 {
        assert k == 2 * (k / 2) || k == 2 * (k / 2) + 1;
      } else {
        assert k == n - 1 && k / 2 == n / 2;
      }
    }
    forall p | 0 <= p < dst.Length
      ensures dst[p] == Written(before, base, src, n)[p]
    {
      if base <= p < base + n {
        assert dst[base + (p - base)] == MappedData(src, p - base);
      }
    }
  }

  /** Four lane stores of one vector register, two elements apart. */
  method StoreLanes(dst: array<Word>, idx: nat, v0: Word, v1: Word, v2: Word, v3: Word)
    requires idx + 6 < dst.Length
    modifies dst
    ensures dst[idx] == v0 && dst[idx + 2] == v1 && dst[idx + 4] == v2 && dst[idx + 6] == v3
    ensures forall p :: 0 <= p < dst.Length && p != idx && p != idx + 2 && p != idx + 4 && p != idx + 6 ==> dst[p] == old(dst[p])
  {
    dst[idx] := v0;
    dst[idx + 2] := v1;
    dst[idx + 4] := v2;
    dst[idx + 6] := v3;
  }

  /** One block: load four words, store their DATAL lanes and then their DATAH lanes. */
  method StoreBlock(dst: array<Word>, base: nat, src: seq<Word>, i: nat)
    requires i + 4 <= |src| && base + 2 * i + 8 <= dst.Length
    modifies dst
    ensures Unpacked(dst, base, src, i, i + 4)
    ensures forall p :: 0 <= p < dst.Length && !(base + 2 * i <= p < base + 2 * i + 8) ==> dst[p] == old(dst[p])
  {
    var idx := base + 2 * i;
    StoreLanes(dst, idx, DataL(src[i]), DataL(src[i + 1]), DataL(src[i + 2]), DataL(src[i + 3]));
    StoreLanes(dst, idx + 1, DataH(src[i]), DataH(src[i + 1]), DataH(src[i + 2]), DataH(src[i + 3]));
  }

  /** The leftover loop and the odd-sample tail that all forms end with. */
  method StoreRest(dst: array<Word>, base: nat, src: seq<Word>, from: nat, n: nat)
    requires from <= n / 2 && (n + 1) / 2 <= |src| && base + n <= dst.Length
    modifies dst
    ensures Unpacked(dst, base, src, from, n / 2)
    ensures n % 2 == 1 ==> dst[base + n - 1] == DataL(src[n / 2])
    ensures forall p :: 0 <= p < dst.Length && !(base + 2 * from <= p < base + n) ==> dst[p] == old(dst[p])
  {
    var wordCount := n / 2;
    var idx := 2 * from;
    for i := from to wordCount
      invariant idx == 2 * i
      invariant Unpacked(dst, base, src, from, i)
      invariant forall p :: 0 <= p < dst.Length && !(base + 2 * from <= p < base + 2 * i) ==> dst[p] == old(dst[p])
    {
      dst[base + idx] := DataL(src[i]);
      idx := idx + 1;
      dst[base + idx] := DataH(src[i]);
      idx := idx + 1;
    }
    if n % 2 == 1 {
      dst[base + idx] := DataL(src[wordCount]);
    }
  }

  /** extractMappedDataBulk: two stores a word, then the odd sample. */
  method ExtractScalar(dst: array<Word>, base: nat, src: seq<Word>, n: nat)
    requires (n + 1) / 2 <= |src| && base + n <= dst.Length
    modifies dst
    ensures dst[..] == Written(old(dst[..]), base, src, n)
  {
    StoreRest(dst, base, src, 0, n);
    UnpackedIsWritten(old(dst[..]), dst, base, src, n);
  }

  /** extractMappedDataBulkSIMD(dst, nSamples): blocks of four words in order. */
  method ExtractVector(dst: array<Word>, base: nat, src: seq<Word>, n: nat)
    requires (n + 1) / 2 <= |src| && base + n <= dst.Length
    modifies dst
    ensures dst[..] == Written(old(dst[..]), base, src, n)
  {
    var wordCount := n / 2;
    var i := 0;
    while i + 3 < wordCount
      invariant 0 <= i <= wordCount
      invariant Unpacked(dst, base, src, 0, i)
      invariant forall p :: 0 <= p < dst.Length && !(base <= p < base + 2 * i) ==> dst[p] == old(dst[p])
    {
      StoreBlock(dst, base, src, i);
      i := i + 4;
    }
    StoreRest(dst, base, src, i, n);
    UnpackedIsWritten(old(dst[..]), dst, base, src, n);
  }

  /** The iterations 0 .. n of a parallel loop. */
  function Below(n: nat): (r: set<nat>)
    ensures forall b :: b in r <==> 0 <= b < n
  {
    if n == 0 then {} else Below(n - 1) + {n - 1}
  }

  /** extractMappedDataBulkSIMD(dst, nSamples, channel): the block loop is an OpenMP parallel-for,
      so the blocks run in an order nobody controls. */
  method ExtractParallel(dst: array<Word>, base: nat, src: seq<Word>, n: nat)
    requires (n + 1) / 2 <= |src| && base + n <= dst.Length
    modifies dst
    ensures dst[..] == Written(old(dst[..]), base, src, n)
  {
    var wordCount := n / 2;
    var simdLimit := wordCount / 4 * 4;
    var pending := Below(wordCount / 4);
    while pending != {}
      invariant forall b :: b in pending ==> b < wordCount / 4
      invariant forall b: nat :: b < wordCount / 4 && b !in pending ==> Unpacked(dst, base, src, 4 * b, 4 * b + 4)
      invariant forall p :: 0 <= p < dst.Length && !(base <= p < base + 2 * simdLimit) ==> dst[p] == old(dst[p])
      decreases pending
    {
      var b :| b in pending;
      StoreBlock(dst, base, src, 4 * b);
      pending := pending - {b};
    }
    forall i | 0 <= i < simdLimit
      ensures dst[base + 2 * i] == DataL(src[i]) && dst[base + 2 * i + 1] == DataH(src[i])
    {
      var b: nat := i / 4;
      assert b < wordCount / 4 && b !in pending;
      assert Unpacked(dst, base, src, 4 * b, 4 * b + 4);
    }
    StoreRest(dst, base, src, simdLimit, n);
    UnpackedIsWritten(old(dst[..]), dst, base, src, n);
  }

  // ---- Lane stores interleaved at will ----

  /** A single store: value v at index at. */
  datatype Store = Store(at: nat, v: Word)

  /** The array after the stores, oldest first. */
  function Apply(dst: seq<Word>, stores: seq<Store>): (r: seq<Word>)
    requires forall s :: s in stores ==> s.at < |dst|
    ensures |r| == |dst|
  {
    if stores == [] then dst
    else
      var last := stores[|stores| - 1];
      Apply(dst, stores[..|stores| - 1])[last.at := last.v]
  }

  /** Store l of block b of the parallel loop, in program order: four DATAL lanes, then four DATAH. */
  function BlockStore(src: seq<Word>, b: nat, l: nat): Store
    requires 4 * b + 4 <= |src| && l < 8
  {
    if l < 4 then Store(8 * b + 2 * l, DataL(src[4 * b + l]))
    else Store(8 * b + 2 * (l - 4) + 1, DataH(src[4 * b + l - 4]))
  }

  /** stores holds exactly the stores of the first blocks blocks, in any order. */
  ghost predicate AllStores(src: seq<Word>, blocks: nat, stores: seq<Store>)
    requires 4 * blocks <= |src|
  {
    forall s :: s in stores <==> exists b: nat, l: nat :: b < blocks && l < 8 && s == BlockStore(src, b, l)
  }

  lemma StoreIsSample(src: seq<Word>, blocks: nat, stores: seq<Store>, s: Store)
    requires 4 * blocks <= |src| && AllStores(src, blocks, stores) && s in stores
    ensures s.at < 8 * blocks && s.v == MappedData(src, s.at)
  {
    var b: nat, l: nat :| b < blocks && l < 8 && s == BlockStore(src, b, l);
    hide MappedData, DataL, DataH;
    SampleOfWord(src, if l < 4 then 4 * b + l else 4 * b + l - 4);
  }

  lemma EverySampleIsStored(src: seq<Word>, blocks: nat, stores: seq<Store>, p: nat) returns (s: Store)
    requires 4 * blocks <= |src| && AllStores(src, blocks, stores) && p < 8 * blocks
    ensures s in stores && s.at == p
  {
    hide DataL, DataH, MappedData;
    var b, l := p / 8, p % 8;
    s := BlockStore(src, b, if l % 2 == 0 then l / 2 else 4 + l / 2);
  }

  /** However the threads interleave their single stores, the samples below 8*blocks come out
      the same and nothing else is touched: no two stores of the parallel loop conflict. */
  lemma AnyInterleaving(dst: seq<Word>, src: seq<Word>, blocks: nat, stores: seq<Store>)
    requires 4 * blocks <= |src| && 8 * blocks <= |dst| && AllStores(src, blocks, stores)
    ensures forall s :: s in stores ==> s.at < |dst|
    ensures Apply(dst, stores) == Samples(src, 8 * blocks) + dst[8 * blocks..]
  {
    forall s | s in stores
      ensures s.at < 8 * blocks && s.v == MappedData(src, s.at)
    {
      StoreIsSample(src, blocks, stores, s);
    }
    ApplyPointwise(dst, stores);
    forall p | 0 <= p < |dst|
      ensures Apply(dst, stores)[p] == (Samples(src, 8 * blocks) + dst[8 * blocks..])[p]
    {
      if p < 8 * blocks {
        var s := EverySampleIsStored(src, blocks, stores, p);
      }
    }
  }

  /** An element holds the value of some store to it, or was never stored to. */
  lemma {:induction false} ApplyPointwise(dst: seq<Word>, stores: seq<Store>)
    requires forall s :: s in stores ==> s.at < |dst|
    ensures forall p :: 0 <= p < |dst| ==>
              (exists s :: s in stores && s.at == p && Apply(dst, stores)[p] == s.v)
              || ((forall s :: s in stores ==> s.at != p) && Apply(dst, stores)[p] == dst[p])
  {
    if stores != [] {
      var k := |stores| - 1;
      assert stores == stores[..k] + [stores[k]];
      ApplyPointwise(dst, stores[..k]);
    }
  }
}
