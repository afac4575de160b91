/** What becomes of the producer's loop when wf_start wraps: it ends at all exactly when some multiple of the
    chunk size lands between N and 2^32 modulo 2^32. */
module ChunkWrap {
  import opened Arithmetic
  import opened ChunkPlan

  /** The largest power of two that divides c. */
  function TwoPart(c: nat): (g: nat)
    requires c > 0
    ensures 1 <= g <= c
  {
    if c % 2 == 1 then 1 else 2 * TwoPart(c / 2)
  }

  lemma TwoPartStep(c: nat)
    requires c > 0
    ensures TwoPart(c) == if c % 2 == 1 then 1 else 2 * TwoPart(c / 2)
    ensures c % 2 == 0 ==> c == 2 * (c / 2) && c / 2 > 0
  {
  }

  /** c is an odd multiple of its two-part, a power of two. */
  lemma {:induction false} TwoPartDivides(c: nat) returns (m: nat, e: nat)
    requires c > 0
    ensures c == m * TwoPart(c) && m % 2 == 1 && TwoPart(c) == Pow2(e)
  {
    hide TwoPart, Pow2;
    TwoPartStep(c);
    if c % 2 == 1 {
      m, e := c, 0;
      Pow2Step(0);
    } else {
      m, e := TwoPartDivides(c / 2);
      Pow2Step(e);
      Doubled(m, TwoPart(c / 2));
      e := e + 1;
    }
  }

  lemma U32IsPower()
    ensures Pow2(32) == U32
  {
    assert Pow2(8) == 256;
    PowersAdd(8, 8);
    PowersAdd(16, 16);
  }

  /** An odd number has an inverse modulo every power of two. */
  lemma {:induction false} OddInverse(m: nat, j: nat) returns (k: nat, t: nat)
    requires m % 2 == 1
    ensures k * m == 1 + t * Pow2(j)
  {
    hide Pow2;
    if j == 0 {
      k, t := 1, m - 1;
      Pow2Step(0);
    } else {
      var p := Pow2(j - 1);
      Pow2Step(j - 1);
      var k', t' := OddInverse(m, j - 1);
      if t' % 2 == 0 {
        k, t := k', t' / 2;
        Halved(t', p);
      } else {
        k, t := k' + p, (t' + m) / 2;
        Distribute(k', p, m);
        Distribute(t', m, p);
        OddSum(t', m);
        Halved(t' + m, p);
      }
    }
  }

  lemma OddSum(a: nat, b: nat)
    requires a % 2 == 1 && b % 2 == 1
    ensures (a + b) % 2 == 0
  {
  }

  lemma Halved(t: nat, p: nat)
    requires t % 2 == 0
    ensures t * p == t / 2 * (2 * p)
  {
    assert t == 2 * (t / 2);
    Doubled(t / 2, p);
    Regroup(2, t / 2, p);
  }

  /** wf_start is the running product, reduced to 32 bits. */
  lemma {:induction false} StartIsRemainder(req: Req, k: nat) returns (q: nat)
    ensures k * req.chunk == q * U32 + Start(req, k)
  {
    if k == 0 {
      q := 0;
    } else {
      var q' := StartIsRemainder(req, k - 1);
      var x := Start(req, k - 1) + req.chunk;
      q := q' + x / U32;
      Distribute(k - 1, 1, req.chunk);
      assert x == x / U32 * U32 + x % U32;
    }
  }

  /** wf_start never gets closer to 2^32 than the two-part of the chunk size. */
  lemma StartStaysBelow(req: Req, k: nat)
    ensures Start(req, k) + TwoPart(req.chunk) <= U32
  {
    hide TwoPart, Pow2, Start;
    var g := TwoPart(req.chunk);
    var m, e := TwoPartDivides(req.chunk);
    var rest := PartOfU32(req.chunk, e);
    var q := StartIsRemainder(req, k);
    Regroup(k, m, g);
    Regroup(q, rest, g);
    DistributeMinus(k * m, q * rest, g);
    MultipleBelow(k * m - q * rest, rest, g);
  }

  lemma MultipleBelow(a: int, b: int, g: nat)
    requires a * g < b * g
    ensures a * g + g <= b * g
  {
    if a >= b {
      ProductOrder(b, a, g);
    } else {
      ProductOrder(a + 1, b, g);
      Distribute(a, 1, g);
    }
  }

  lemma PartOfU32(c: nat, e: nat) returns (rest: nat)
    requires 0 < c <= 1024 && TwoPart(c) == Pow2(e)
    ensures U32 == rest * TwoPart(c) && e <= 32 && rest == Pow2(32 - e)
  {
    U32IsPower();
    PowerBound(e, 32);
    rest := Pow2(32 - e);
    PowersAdd(32 - e, e);
  }

  /** Some turn brings wf_start exactly that close. */
  lemma StartGetsClose(req: Req) returns (k: nat)
    ensures Start(req, k) + TwoPart(req.chunk) == U32
  {
    hide TwoPart, Pow2, Start;
    var c, g := req.chunk, TwoPart(req.chunk);
    var m, e := TwoPartDivides(c);
    var rest := PartOfU32(c, e);
    var i, t := OddInverse(m, 32 - e);
    k := (rest - 1) * i;
    Landing(rest, i, m, t, g, c);
    var q := StartIsRemainder(req, k);
    RemainderIs(k * c, (rest - 1) * t, U32 - g, U32);
    RemainderIs(k * c, q, Start(req, k), U32);
  }

  lemma Landing(rest: nat, i: nat, m: nat, t: nat, g: nat, c: nat)
    requires rest >= 1 && i * m == 1 + t * rest && c == m * g
    ensures (rest - 1) * i * c == (rest - 1) * t * (rest * g) + (rest * g - g)
  {
    var r := rest - 1;
    calc {
      r * i * c;
    ==
      r * i * (m * g);
    ==  { Regroup(r * i, m, g); }
      r * i * m * g;
    ==  { Regroup(r, i, m); }
      r * (1 + t * rest) * g;
    ==  { Distribute(1, t * rest, r); }
      (r + r * (t * rest)) * g;
    ==  { Distribute(r, r * (t * rest), g); }
      r * g + r * (t * rest) * g;
    ==  { Regroup(r, t, rest); Regroup(r * t, rest, g); }
      r * g + r * t * (rest * g);
    ==  { DistributeMinus(rest, 1, g); }
      r * t * (rest * g) + (rest * g - g);
    }
  }

  /** The producer's loop ends, on time or after wrapping round, if and only if N is at most 2^32 less the
      largest power of two that divides the chunk size. Otherwise it sends for ever. */
  lemma LoopEndsIff(req: Req)
    ensures (exists k: nat :: Start(req, k) >= req.N) <==> req.N + TwoPart(req.chunk) <= U32
  {
    forall k: nat
      ensures Start(req, k) + TwoPart(req.chunk) <= U32
    {
      StartStaysBelow(req, k);
    }
    var k := StartGetsClose(req);
    assert Start(req, k) >= req.N <==> req.N + TwoPart(req.chunk) <= U32;
  }
}
