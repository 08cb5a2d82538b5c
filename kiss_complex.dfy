/** Complex arithmetic of kiss_fft's floating-point build (kiss_fft_scalar is float),
    stated over exact reals: rounding is not modelled. The complex macros of
    _kiss_fft_guts.h that assign a fresh value become functions; those that update
    their argument in place (C_ADDTO, C_SUBFROM, C_MULBYSCALAR) become methods that
    update one slot of an array, which is how the butterflies use them. */
module KissComplex {

  /** kiss_fft_cpx: a real part r and an imaginary part i. */
  datatype Complex = Complex(r: real, i: real)

  const Zero: Complex := Complex(0.0, 0.0)
  const One: Complex := Complex(1.0, 0.0)

  /** MIN(n, m): the smaller argument. */
  function Min(n: int, m: int): (r: int)
    ensures r <= n && r <= m
    ensures r == n || r == m
  {
    if n < m then n else m
  }

  /** MAX(n, m): the larger argument. */
  function Max(n: int, m: int): (r: int)
    ensures r >= n && r >= m
    ensures r == n || r == m
  {
    if n > m then n else m
  }

  /** C_ADD(res, a, b): res = a + b, componentwise. */
  function Add(a: Complex, b: Complex): Complex
  {
    Complex(a.r + b.r, a.i + b.i)
  }

  /** C_SUB(res, a, b): res = a - b, componentwise. */
  function Sub(a: Complex, b: Complex): Complex
  {
    Complex(a.r - b.r, a.i - b.i)
  }

  /** C_MUL(m, a, b): the complex product a * b. */
  function Mul(a: Complex, b: Complex): Complex
  {
    Complex(a.r * b.r - a.i * b.i, a.r * b.i + a.i * b.r)
  }

  /** The value C_MULBYSCALAR(c, s) leaves in c. */
  function Scale(c: Complex, s: real): Complex
  {
    Complex(c.r * s, c.i * s)
  }

  /** The squared modulus re*re + im*im, as the spectrum pipeline computes it. */
  function NormSq(c: Complex): real
  {
    c.r * c.r + c.i * c.i
  }

  /** C_ADDTO(a[k], x): a[k] += x; no other slot changes. */
  method AddTo(a: array<Complex>, k: nat, x: Complex)
    requires k < a.Length
    modifies a
    ensures a[..] == old(a[..])[k := Add(old(a[k]), x)]
  {
    a[k] := Complex(a[k].r + x.r, a[k].i + x.i);
  }

  /** C_SUBFROM(a[k], x): a[k] -= x; no other slot changes. */
  method SubFrom(a: array<Complex>, k: nat, x: Complex)
    requires k < a.Length
    modifies a
    ensures a[..] == old(a[..])[k := Sub(old(a[k]), x)]
  {
    a[k] := Complex(a[k].r - x.r, a[k].i - x.i);
  }

  /** C_MULBYSCALAR(a[k], s): both parts of a[k] are multiplied by s. */
  method MulByScalar(a: array<Complex>, k: nat, s: real)
    requires k < a.Length
    modifies a
    ensures a[..] == old(a[..])[k := Scale(old(a[k]), s)]
  {
    a[k] := Scale(a[k], s);
  }

  // ----- The algebra the butterflies rely on -----

  lemma AddCommutes(a: Complex, b: Complex)
    ensures Add(a, b) == Add(b, a)
  {
  }

  lemma AddAssociates(a: Complex, b: Complex, c: Complex)
    ensures Add(Add(a, b), c) == Add(a, Add(b, c))
  {
  }

  lemma AddZero(a: Complex)
    ensures Add(a, Zero) == a && Add(Zero, a) == a
  {
  }

  /** C_SUB undoes C_ADD and the other way round, so C_SUBFROM undoes C_ADDTO. */
  lemma SubUndoesAdd(a: Complex, b: Complex)
    ensures Sub(Add(a, b), b) == a
    ensures Add(Sub(a, b), b) == a
  {
  }

  lemma MulCommutes(a: Complex, b: Complex)
    ensures Mul(a, b) == Mul(b, a)
  {
  }

  /** A twiddle factor of 1 leaves its operand unchanged. */
  lemma MulOne(a: Complex)
    ensures Mul(a, One) == a && Mul(One, a) == a
  {
  }

  lemma MulZero(a: Complex)
    ensures Mul(a, Zero) == Zero
  {
  }

  lemma MulDistributes(a: Complex, b: Complex, c: Complex)
    ensures Mul(Add(a, b), c) == Add(Mul(a, c), Mul(b, c))
  {
  }

  /** Scaling by a real commutes with C_MUL. */
  lemma ScaleMul(a: Complex, w: Complex, s: real)
    ensures Mul(Scale(a, s), w) == Scale(Mul(a, w), s)
  {
    assert (a.r * s) * w.r - (a.i * s) * w.i == (a.r * w.r - a.i * w.i) * s;
    assert (a.r * s) * w.i + (a.i * s) * w.r == (a.r * w.i + a.i * w.r) * s;
  }

  /** Scaling by a real distributes over C_ADD. */
  lemma ScaleAdd(a: Complex, b: Complex, s: real)
    ensures Add(Scale(a, s), Scale(b, s)) == Scale(Add(a, b), s)
  {
  }

  /** C_MULBYSCALAR by s is C_MUL by the complex number (s, 0). */
  lemma ScaleIsMul(c: Complex, s: real)
    ensures Scale(c, s) == Mul(c, Complex(s, 0.0))
  {
  }

  /** The modulus of a product is the product of the moduli (in squared form):
      multiplying by a twiddle factor of modulus 1 keeps the magnitude. */
  lemma NormSqMultiplies(a: Complex, b: Complex)
    ensures NormSq(Mul(a, b)) == NormSq(a) * NormSq(b)
  {
  }

  lemma SquareNonNegative(x: real)
    ensures x * x >= 0.0
  {
    if x < 0.0 {
      assert (-x) * (-x) > 0.0;
    }
  }

  /** The argument the pipeline hands to sqrtf is never negative. */
  lemma NormSqNonNegative(c: Complex)
    ensures NormSq(c) >= 0.0
  {
    SquareNonNegative(c.r);
    SquareNonNegative(c.i);
  }
}
