/** kf_bfly_generic of kiss_fft: the radix-p butterfly used for a factor that has no
    specialised butterfly. It runs in place on Fout, which holds m interleaved lanes
    of p values each (lane u holds Fout[u], Fout[u + m], ..., Fout[u + (p-1)*m]), and
    replaces every lane by its size-p direct DFT, with twiddle factors taken from the
    configuration's table. */
module KissButterfly {
  import opened KissComplex

  /** The fields of struct kiss_fft_state. The butterfly reads nfft and twiddles only;
      being a value, the state cannot be changed by it. */
  datatype FftState = FftState(nfft: int, inverse: int, factors: seq<int>, twiddles: seq<Complex>)

  // ----- Index arithmetic -----

  /** Division by m has a unique quotient and remainder. */
  lemma DivModUnique(x: int, m: int, d: int, r: int)
    requires 0 < m && 0 <= r < m && x == d * m + r
    ensures x / m == d && x % m == r
  {
    var d', r' := x / m, x % m;
    assert (d' - d) * m == r - r';
    MultipleGap(d' - d, m);
  }

  /** A non-zero multiple of m is at least m away from 0. */
  lemma MultipleGap(a: int, m: int)
    requires 0 < m
    ensures a == 0 || a * m >= m || a * m <= -m
  {
    if a >= 1 {
      MulMono(a, 1, m);
    } else if a <= -1 {
      MulMono(-a, 1, m);
      assert a * m == -((-a) * m);
    }
  }

  lemma MulMono(a: int, b: int, m: int)
    ensures a >= b && m >= 0 ==> a * m >= b * m
  {
    if a >= b && m >= 0 {
      assert a * m - b * m == (a - b) * m;
    }
  }

  /** Slot q1 of lane u lies in lane u at position q1. */
  lemma LaneIndex(u: nat, q1: nat, m: nat)
    requires u < m
    ensures (u + q1 * m) % m == u && (u + q1 * m) / m == q1
  {
    DivModUnique(u + q1 * m, m, q1, u);
  }

  /** Every slot of the m lanes of p values lies below m * p. */
  lemma LaneBound(u: nat, q1: nat, m: nat, p: nat)
    requires u < m && q1 < p
    ensures u + q1 * m < m * p
  {
    assert q1 * m <= (p - 1) * m;
  }

  /** An index below m * p has a lane below m and a position below p, and is rebuilt from
      them. */
  lemma LaneOf(j: nat, m: nat, p: nat)
    requires j < m * p
    ensures 0 < m && 0 < p
    ensures j % m < m && j / m < p && j == j % m + (j / m) * m
  {
    ZeroProduct(m, p);
    MulMono(j / m, p, m);
  }

  lemma ZeroProduct(m: nat, p: nat)
    ensures m == 0 || p == 0 ==> m * p == 0
  {
  }

  /** A slot below m * p, scaled by fstride, stays below fstride * m * p. */
  lemma StrideBound(fstride: nat, k: nat, m: nat, p: nat)
    requires 0 < fstride && k < m * p
    ensures fstride * k < fstride * m * p
  {
    assert fstride * (m * p) == fstride * m * p;
  }

  lemma SizePositive(fstride: nat, m: nat, p: nat)
    requires 0 < fstride && 0 < m && 0 < p
    ensures 0 < m * p && 0 < fstride * m * p
  {
    assert m * p >= 1 by { MulMono(p, 1, m); }
    assert fstride * (m * p) >= 1 by { MulMono(fstride, 1, m * p); }
  }

  /** The twiddle-index update of lines 211-213: add the step and subtract Norig once if
      the sum reaches it. One subtraction suffices because both operands are below Norig. */
  function WrapAdd(twidx: int, step: int, norig: int): (r: int)
    requires 0 <= twidx < norig && 0 <= step < norig
    ensures 0 <= r < norig
    ensures r == (twidx + step) % norig
  {
    var s := twidx + step;
    if s >= norig then
      DivModUnique(s, norig, 1, s - norig);
      s - norig
    else
      DivModUnique(s, norig, 0, s);
      s
  }

  /** After term q the running twiddle index is (q * step) % Norig. */
  lemma {:induction false} TwiddleIndexStep(q: nat, step: nat, norig: int)
    requires 0 <= step < norig
    ensures WrapAdd((q * step) % norig, step, norig) == ((q + 1) * step) % norig
  {
    var a := q * step;
    var r := a % norig;
    var s := r + step;
    DivModUnique(a + step, norig, a / norig + s / norig, s % norig);
    assert (q + 1) * step == a + step;
  }

  // ----- Specification -----

  /** The scratch vector of lane u: the p values at stride m starting at u. */
  function Gather(f: seq<Complex>, u: nat, m: nat, p: nat): seq<Complex>
    requires u < m && m * p <= |f|
  {
    seq(p, q requires 0 <= q < p => LaneBound(u, q, m, p); f[u + q * m])
  }

  /** The first n terms of the sum that yields output slot k of a lane: term 0 is the
      lane's first value as it is, term q > 0 is lane[q] times the twiddle factor at
      (q * fstride * k) % Norig, where Norig is the length of the table. */
  function PartialDft(lane: seq<Complex>, tw: seq<Complex>, fstride: nat, k: nat, n: nat): Complex
    requires 1 <= n <= |lane| && 0 < |tw|
    decreases n
  {
    if n == 1 then lane[0]
    else Add(PartialDft(lane, tw, fstride, k, n - 1),
             Mul(lane[n - 1], tw[((n - 1) * (fstride * k)) % |tw|]))
  }

  /** The value kf_bfly_generic computes for slot j: the DFT term for output index j of
      the lane j lies in, j % m, from that lane's values before the call. */
  function Slot(f: seq<Complex>, tw: seq<Complex>, fstride: nat, m: nat, p: nat, j: nat): Complex
    requires 0 < fstride && fstride * m * p == |tw| && m * p <= |f| && j < m * p
  {
    LaneOf(j, m, p);
    SizePositive(fstride, m, p);
    PartialDft(Gather(f, j % m, m, p), tw, fstride, j, p)
  }

  /** What kf_bfly_generic leaves in Fout: every slot j < m * p holds Slot(j); the slots
      from m * p on keep their values. */
  function Butterfly(f: seq<Complex>, tw: seq<Complex>, fstride: nat, m: nat, p: nat): (r: seq<Complex>)
    requires 0 < fstride && fstride * m * p == |tw| && m * p <= |f|
    ensures |r| == |f|
  {
    seq(|f|, j requires 0 <= j < |f| =>
      if j < m * p then Slot(f, tw, fstride, m, p, j) else f[j])
  }

  // ----- Properties of the specification -----

  /** For lane u < m and position q1 < p, slot k = u + q1 * m ends up holding Fout[u] plus
      the sum over q = 1 .. p-1 of Fout[u + q*m] times twiddles[(q * fstride * k) % Norig],
      all taken from before the call. */
  lemma ButterflySlot(f: seq<Complex>, tw: seq<Complex>, fstride: nat, m: nat, p: nat, u: nat, q1: nat)
    requires 0 < fstride && fstride * m * p == |tw| && m * p <= |f|
    requires u < m && q1 < p
    ensures u + q1 * m < |f| && 0 < |tw|
    ensures Butterfly(f, tw, fstride, m, p)[u + q1 * m] == PartialDft(Gather(f, u, m, p), tw, fstride, u + q1 * m, p)
    ensures forall q :: 0 <= q < p ==> u + q * m < |f| && Gather(f, u, m, p)[q] == f[u + q * m]
  {
    var k := u + q1 * m;
    LaneBound(u, q1, m, p);
    LaneIndex(u, q1, m);
    SizePositive(fstride, m, p);
    assert Butterfly(f, tw, fstride, m, p)[k] == Slot(f, tw, fstride, m, p, k);
    forall q | 0 <= q < p
      ensures u + q * m < |f| && Gather(f, u, m, p)[q] == f[u + q * m]
    {
      LaneBound(u, q, m, p);
    }
  }

  /** Only slots below m * p are written. */
  lemma ButterflyLeavesRestAlone(f: seq<Complex>, tw: seq<Complex>, fstride: nat, m: nat, p: nat, j: nat)
    requires 0 < fstride && fstride * m * p == |tw| && m * p <= |f|
    requires m * p <= j < |f|
    ensures Butterfly(f, tw, fstride, m, p)[j] == f[j]
  {
  }

  /** Lanes are independent: what lane u ends up holding depends only on what lane u held
      before, so writing one lane cannot disturb the inputs of another. */
  lemma ButterflyLanesIndependent(f: seq<Complex>, g: seq<Complex>, tw: seq<Complex>, fstride: nat, m: nat, p: nat, u: nat, q1: nat)
    requires 0 < fstride && fstride * m * p == |tw| && m * p <= |f| && m * p <= |g|
    requires u < m && q1 < p
    requires forall q :: 0 <= q < p ==> u + q * m < |f| && u + q * m < |g| && f[u + q * m] == g[u + q * m]
    ensures u + q1 * m < |f| && u + q1 * m < |g|
    ensures Butterfly(f, tw, fstride, m, p)[u + q1 * m] == Butterfly(g, tw, fstride, m, p)[u + q1 * m]
  {
    ButterflySlot(f, tw, fstride, m, p, u, q1);
    ButterflySlot(g, tw, fstride, m, p, u, q1);
    assert Gather(f, u, m, p) == Gather(g, u, m, p);
  }

  /** A radix of 1 leaves Fout as it is. */
  lemma RadixOneIsIdentity(f: seq<Complex>, tw: seq<Complex>, fstride: nat, m: nat)
    requires 0 < fstride && fstride * m * 1 == |tw| && m <= |f|
    ensures Butterfly(f, tw, fstride, m, 1) == f
  {
    forall j | 0 <= j < m
      ensures Butterfly(f, tw, fstride, m, 1)[j] == f[j]
    {
      LaneOf(j, m, 1);
      assert j / m == 0 && j % m == j;
    }
  }

  /** The textbook form of the lane sum: every term, the one for q = 0 included, is
      multiplied by its twiddle factor, and the sum starts from zero. */
  function DftSum(lane: seq<Complex>, tw: seq<Complex>, fstride: nat, k: nat, n: nat): Complex
    requires n <= |lane| && 0 < |tw|
    decreases n
  {
    if n == 0 then Zero
    else Add(DftSum(lane, tw, fstride, k, n - 1), Mul(lane[n - 1], tw[((n - 1) * (fstride * k)) % |tw|]))
  }

  /** Term 0 carries no twiddle factor in kf_bfly_generic; this is the same sum as the
      textbook one because the table's entry 0 is exp(0) = 1. */
  lemma {:induction false} PartialDftIsDftSum(lane: seq<Complex>, tw: seq<Complex>, fstride: nat, k: nat, n: nat)
    requires 1 <= n <= |lane| && 0 < |tw| && tw[0] == One
    ensures PartialDft(lane, tw, fstride, k, n) == DftSum(lane, tw, fstride, k, n)
  {
    if n == 1 {
      assert (0 * (fstride * k)) % |tw| == 0 by { DivModUnique(0, |tw|, 0, 0); }
      MulOne(lane[0]);
      AddZero(Mul(lane[0], One));
    } else {
      PartialDftIsDftSum(lane, tw, fstride, k, n - 1);
    }
  }

  /** The lane sum is additive in the lane: the sum over a pointwise sum of two lanes
      is the sum of their lane sums. */
  lemma {:induction false} PartialDftAdditive(a: seq<Complex>, b: seq<Complex>, c: seq<Complex>, tw: seq<Complex>, fstride: nat, k: nat, n: nat)
    requires |a| == |b| == |c| && 1 <= n <= |a| && 0 < |tw|
    requires forall q :: 0 <= q < |c| ==> c[q] == Add(a[q], b[q])
    ensures PartialDft(c, tw, fstride, k, n) == Add(PartialDft(a, tw, fstride, k, n), PartialDft(b, tw, fstride, k, n))
  {
    if n > 1 {
      PartialDftAdditive(a, b, c, tw, fstride, k, n - 1);
      var w := tw[((n - 1) * (fstride * k)) % |tw|];
      MulDistributes(a[n - 1], b[n - 1], w);
      var pa, pb := PartialDft(a, tw, fstride, k, n - 1), PartialDft(b, tw, fstride, k, n - 1);
      var ta, tb := Mul(a[n - 1], w), Mul(b[n - 1], w);
      calc {
        PartialDft(c, tw, fstride, k, n);
        Add(Add(pa, pb), Add(ta, tb));
        { AddAssociates(pa, pb, Add(ta, tb)); AddAssociates(pb, ta, tb); AddCommutes(pb, ta);
          AddAssociates(ta, pb, tb); AddAssociates(pa, ta, Add(pb, tb)); }
        Add(Add(pa, ta), Add(pb, tb));
      }
    }
  }

  /** The lane sum is homogeneous in the lane: scaling every value of the lane by a real
      scales the lane sum. */
  lemma {:induction false} PartialDftScales(a: seq<Complex>, c: seq<Complex>, s: real, tw: seq<Complex>, fstride: nat, k: nat, n: nat)
    requires |a| == |c| && 1 <= n <= |a| && 0 < |tw|
    requires forall q :: 0 <= q < |c| ==> c[q] == Scale(a[q], s)
    ensures PartialDft(c, tw, fstride, k, n) == Scale(PartialDft(a, tw, fstride, k, n), s)
  {
    if n > 1 {
      PartialDftScales(a, c, s, tw, fstride, k, n - 1);
      var w := tw[((n - 1) * (fstride * k)) % |tw|];
      ScaleMul(a[n - 1], w, s);
      ScaleAdd(PartialDft(a, tw, fstride, k, n - 1), Mul(a[n - 1], w), s);
    }
  }

  /** The butterfly is additive: on every slot of Fout, the butterfly of a pointwise sum
      is the sum of the butterflies. */
  lemma ButterflyAdditive(f: seq<Complex>, g: seq<Complex>, h: seq<Complex>, tw: seq<Complex>, fstride: nat, m: nat, p: nat)
    requires 0 < fstride && fstride * m * p == |tw| && m * p <= |f| && |f| == |g| == |h|
    requires forall j :: 0 <= j < |h| ==> h[j] == Add(f[j], g[j])
    ensures forall j :: 0 <= j < |h| ==>
      Butterfly(h, tw, fstride, m, p)[j] == Add(Butterfly(f, tw, fstride, m, p)[j], Butterfly(g, tw, fstride, m, p)[j])
  {
    forall j | 0 <= j < |h|
      ensures Butterfly(h, tw, fstride, m, p)[j] == Add(Butterfly(f, tw, fstride, m, p)[j], Butterfly(g, tw, fstride, m, p)[j])
    {
      if j < m * p {
        SlotAdditive(f, g, h, tw, fstride, m, p, j);
      }
    }
  }

  lemma SlotAdditive(f: seq<Complex>, g: seq<Complex>, h: seq<Complex>, tw: seq<Complex>, fstride: nat, m: nat, p: nat, j: nat)
    requires 0 < fstride && fstride * m * p == |tw| && m * p <= |f| && |f| == |g| == |h| && j < m * p
    requires forall i :: 0 <= i < |h| ==> h[i] == Add(f[i], g[i])
    ensures Slot(h, tw, fstride, m, p, j) == Add(Slot(f, tw, fstride, m, p, j), Slot(g, tw, fstride, m, p, j))
  {
    LaneOf(j, m, p);
    SizePositive(fstride, m, p);
    var u := j % m;
    var lf, lg, lh := Gather(f, u, m, p), Gather(g, u, m, p), Gather(h, u, m, p);
    forall q | 0 <= q < p
      ensures lh[q] == Add(lf[q], lg[q])
    {
      LaneBound(u, q, m, p);
    }
    PartialDftAdditive(lf, lg, lh, tw, fstride, j, p);
  }

  /** The butterfly is homogeneous: scaling every slot of Fout by a real scales every slot
      of the result. Together with ButterflyAdditive, the butterfly is linear. */
  lemma ButterflyScales(f: seq<Complex>, h: seq<Complex>, s: real, tw: seq<Complex>, fstride: nat, m: nat, p: nat)
    requires 0 < fstride && fstride * m * p == |tw| && m * p <= |f| && |f| == |h|
    requires forall j :: 0 <= j < |h| ==> h[j] == Scale(f[j], s)
    ensures forall j :: 0 <= j < |h| ==>
      Butterfly(h, tw, fstride, m, p)[j] == Scale(Butterfly(f, tw, fstride, m, p)[j], s)
  {
    forall j | 0 <= j < |h|
      ensures Butterfly(h, tw, fstride, m, p)[j] == Scale(Butterfly(f, tw, fstride, m, p)[j], s)
    {
      if j < m * p {
        SlotScales(f, h, s, tw, fstride, m, p, j);
      }
    }
  }

  lemma SlotScales(f: seq<Complex>, h: seq<Complex>, s: real, tw: seq<Complex>, fstride: nat, m: nat, p: nat, j: nat)
    requires 0 < fstride && fstride * m * p == |tw| && m * p <= |f| && |f| == |h| && j < m * p
    requires forall i :: 0 <= i < |h| ==> h[i] == Scale(f[i], s)
    ensures Slot(h, tw, fstride, m, p, j) == Scale(Slot(f, tw, fstride, m, p, j), s)
  {
    LaneOf(j, m, p);
    SizePositive(fstride, m, p);
    var u := j % m;
    var lf, lh := Gather(f, u, m, p), Gather(h, u, m, p);
    forall q | 0 <= q < p
      ensures lh[q] == Scale(lf[q], s)
    {
      LaneBound(u, q, m, p);
    }
    PartialDftScales(lf, lh, s, tw, fstride, j, p);
  }

  // ----- The in-place algorithm -----

  /** Slot j has been written once lanes below u and the first q1 slots of lane u are. */
  predicate Written(m: nat, p: nat, u: nat, q1: nat, j: nat)
  {
    j < m * p && (j % m < u || (j % m == u && j / m < q1))
  }

  /** Fout part way through: the written slots hold their Slot value, every other slot
      still holds its value from before the call. */
  ghost function Progress(f: seq<Complex>, tw: seq<Complex>, fstride: nat, m: nat, p: nat, u: nat, q1: nat): (r: seq<Complex>)
    requires 0 < fstride && fstride * m * p == |tw| && m * p <= |f|
    ensures |r| == |f|
  {
    seq(|f|, j requires 0 <= j < |f| =>
      if Written(m, p, u, q1, j) then Slot(f, tw, fstride, m, p, j) else f[j])
  }

  /** Two stages that have written the same slots are the same state. */
  lemma SameProgress(f: seq<Complex>, tw: seq<Complex>, fstride: nat, m: nat, p: nat, u: nat, q1: nat, u': nat, q1': nat)
    requires 0 < fstride && fstride * m * p == |tw| && m * p <= |f|
    requires forall j :: 0 <= j < |f| ==> Written(m, p, u, q1, j) == Written(m, p, u', q1', j)
    ensures Progress(f, tw, fstride, m, p, u, q1) == Progress(f, tw, fstride, m, p, u', q1')
  {
  }

  lemma ProgressStart(f: seq<Complex>, tw: seq<Complex>, fstride: nat, m: nat, p: nat)
    requires 0 < fstride && fstride * m * p == |tw| && m * p <= |f|
    ensures Progress(f, tw, fstride, m, p, 0, 0) == f
  {
  }

  /** Before lane u is written, its slots hold their original values. */
  lemma ProgressLaneUntouched(f: seq<Complex>, tw: seq<Complex>, fstride: nat, m: nat, p: nat, u: nat, q: nat)
    requires 0 < fstride && fstride * m * p == |tw| && m * p <= |f|
    requires u < m && q < p
    ensures u + q * m < m * p
    ensures Progress(f, tw, fstride, m, p, u, 0)[u + q * m] == f[u + q * m]
  {
    LaneBound(u, q, m, p);
    LaneIndex(u, q, m);
    assert !Written(m, p, u, 0, u + q * m);
  }

  /** Writing slot q1 of lane u advances the progress by one slot. */
  lemma ProgressSlot(f: seq<Complex>, tw: seq<Complex>, fstride: nat, m: nat, p: nat, u: nat, q1: nat)
    requires 0 < fstride && fstride * m * p == |tw| && m * p <= |f|
    requires u < m && q1 < p
    ensures u + q1 * m < m * p
    ensures 0 < |tw|
    ensures Slot(f, tw, fstride, m, p, u + q1 * m) == PartialDft(Gather(f, u, m, p), tw, fstride, u + q1 * m, p)
    ensures Progress(f, tw, fstride, m, p, u, q1)[u + q1 * m := Slot(f, tw, fstride, m, p, u + q1 * m)]
            == Progress(f, tw, fstride, m, p, u, q1 + 1)
  {
    var k := u + q1 * m;
    LaneBound(u, q1, m, p);
    LaneIndex(u, q1, m);
    SizePositive(fstride, m, p);
    assert Written(m, p, u, q1 + 1, k);
    var lhs := Progress(f, tw, fstride, m, p, u, q1)[k := Slot(f, tw, fstride, m, p, k)];
    var rhs := Progress(f, tw, fstride, m, p, u, q1 + 1);
    forall j | 0 <= j < |f| && j != k
      ensures Written(m, p, u, q1, j) == Written(m, p, u, q1 + 1, j)
    {
      if j < m * p {
        LaneOf(j, m, p);
      }
    }
    assert forall j :: 0 <= j < |f| ==> lhs[j] == rhs[j];
  }

  /** A lane with all p slots written is the same state as the next lane not yet begun. */
  lemma ProgressLane(f: seq<Complex>, tw: seq<Complex>, fstride: nat, m: nat, p: nat, u: nat)
    requires 0 < fstride && fstride * m * p == |tw| && m * p <= |f|
    requires u < m
    ensures Progress(f, tw, fstride, m, p, u, p) == Progress(f, tw, fstride, m, p, u + 1, 0)
  {
    forall j | 0 <= j < |f|
      ensures Written(m, p, u, p, j) == Written(m, p, u + 1, 0, j)
    {
      if j < m * p {
        LaneOf(j, m, p);
      }
    }
    SameProgress(f, tw, fstride, m, p, u, p, u + 1, 0);
  }

  lemma ProgressEnd(f: seq<Complex>, tw: seq<Complex>, fstride: nat, m: nat, p: nat)
    requires 0 < fstride && fstride * m * p == |tw| && m * p <= |f|
    ensures Progress(f, tw, fstride, m, p, m, 0) == Butterfly(f, tw, fstride, m, p)
  {
    forall j | 0 <= j < |f| && j < m * p
      ensures j % m < m
    {
      LaneOf(j, m, p);
    }
  }

  /** Lane u still holds its original values when it is gathered. */
  lemma ProgressGather(f: seq<Complex>, tw: seq<Complex>, fstride: nat, m: nat, p: nat, u: nat)
    requires 0 < fstride && fstride * m * p == |tw| && m * p <= |f|
    requires u < m
    ensures Gather(Progress(f, tw, fstride, m, p, u, 0), u, m, p) == Gather(f, u, m, p)
  {
    var pr := Progress(f, tw, fstride, m, p, u, 0);
    var g, g' := Gather(pr, u, m, p), Gather(f, u, m, p);
    forall q | 0 <= q < p
      ensures g[q] == g'[q]
    {
      ProgressLaneUntouched(f, tw, fstride, m, p, u, q);
      assert g[q] == pr[u + q * m];
    }
  }

  lemma MulSucc(q: int, m: int)
    ensures (q + 1) * m == q * m + m
  {
  }

  /** The loop at lines 199-204: copy lane u of Fout into the scratch vector. C_FIXDIV
      expands to nothing in the floating-point build, so the values are copied as they are. */
  method GatherLane(fout: array<Complex>, scratch: array<Complex>, u: nat, m: nat, p: nat)
    requires u < m && m * p <= fout.Length && scratch.Length == p && fout != scratch
    modifies scratch
    ensures scratch[..] == Gather(fout[..], u, m, p)
  {
    var k := u;
    for q1 := 0 to p
      invariant k == u + q1 * m
      invariant scratch[..q1] == Gather(fout[..], u, m, p)[..q1]
    {
      LaneBound(u, q1, m, p);
      scratch[q1] := fout[k];
      MulSucc(q1, m);
      k := k + m;
    }
    assert scratch[..] == scratch[..p];
  }

  /** One pass of the loop at lines 207-218: Fout[k] := scratch[0], then C_ADDTO of
      scratch[q] times the twiddle factor for q = 1 .. p-1, with the twiddle index kept
      below Norig by one conditional subtraction per step. Only Fout[k] changes. */
  method ComputeSlot(fout: array<Complex>, k: nat, scratch: array<Complex>, twiddles: seq<Complex>, fstride: nat)
    requires k < fout.Length && 0 < scratch.Length && fout != scratch
    requires fstride * k < |twiddles|
    modifies fout
    ensures fout[..] == old(fout[..])[k := PartialDft(scratch[..], twiddles, fstride, k, scratch.Length)]
  {
    var p := scratch.Length;
    var norig := |twiddles|;
    var twidx := 0;
    assert (0 * (fstride * k)) % norig == 0 by { DivModUnique(0, norig, 0, 0); }
    fout[k] := scratch[0];
    for q := 1 to p
      invariant 0 <= twidx < norig && twidx == ((q - 1) * (fstride * k)) % norig
      invariant fout[..] == old(fout[..])[k := PartialDft(scratch[..], twiddles, fstride, k, q)]
    {
      TwiddleIndexStep(q - 1, fstride * k, norig);
      twidx := twidx + fstride * k;
      if twidx >= norig {
        twidx := twidx - norig;
      }
      assert twidx == (q * (fstride * k)) % norig;
      var t := Mul(scratch[q], twiddles[twidx]);
      AddTo(fout, k, t);
    }
  }

  /** The loop at lines 206-218: overwrite each slot of lane u with its DFT term,
      reading only the scratch vector, which holds the lane's original values. */
  method WriteLane(fout: array<Complex>, scratch: array<Complex>, u: nat, twiddles: seq<Complex>, fstride: nat, m: nat, p: nat, ghost f: seq<Complex>)
    requires 0 < fstride && fstride * m * p == |twiddles| && m * p <= |f| && |f| == fout.Length
    requires u < m && fout != scratch
    requires fout[..] == Progress(f, twiddles, fstride, m, p, u, 0)
    requires scratch[..] == Gather(f, u, m, p)
    modifies fout
    ensures fout[..] == Progress(f, twiddles, fstride, m, p, u, p)
  {
    var k := u;
    for q1 := 0 to p
      invariant k == u + q1 * m
      invariant fout[..] == Progress(f, twiddles, fstride, m, p, u, q1)
    {
      ProgressSlot(f, twiddles, fstride, m, p, u, q1);
      StrideBound(fstride, k, m, p);
      SizePositive(fstride, m, p);
      ComputeSlot(fout, k, scratch, twiddles, fstride);
      MulSucc(q1, m);
      k := k + m;
    }
  }

  /** kf_bfly_generic(Fout, fstride, st, m, p). The caller (the mixed-radix recursion of
      kiss_fft) passes a stride and radix with fstride * m * p == st->nfft, and a table of
      st->nfft twiddle factors. */
  method GenericButterfly(fout: array<Complex>, fstride: nat, st: FftState, m: nat, p: nat)
    requires 0 < fstride && st.nfft == |st.twiddles| && fstride * m * p == st.nfft
    requires m * p <= fout.Length
    modifies fout
    ensures fout[..] == Butterfly(old(fout[..]), st.twiddles, fstride, m, p)
  {
    ghost var f := fout[..];
    var twiddles := st.twiddles;
    var scratch := new Complex[p];
    ProgressStart(f, twiddles, fstride, m, p);
    for u := 0 to m
      invariant fout[..] == Progress(f, twiddles, fstride, m, p, u, 0)
    {
      GatherLane(fout, scratch, u, m, p);
      ghost var lane := Gather(f, u, m, p);
      ProgressGather(f, twiddles, fstride, m, p, u);
      assert scratch[..] == lane;

      WriteLane(fout, scratch, u, twiddles, fstride, m, p, f);
      ProgressLane(f, twiddles, fstride, m, p, u);
    }
    ProgressEnd(f, twiddles, fstride, m, p);
  }
}
