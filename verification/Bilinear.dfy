// Bilinear accumulation of scattered samples on a pixel grid, over exact reals,
// and the normalisation by accumulated weight.
module Bilinear {

  datatype Sample = Sample(x: real, y: real, value: real)

  // ---- The reference: each sample spreads a tent of width two -------------

  function Tent(d: real): (t: real)
    ensures 0.0 <= t <= 1.0
  {
    if d <= -1.0 || d >= 1.0 then 0.0 else if d < 0.0 then 1.0 + d else 1.0 - d
  }

  function Product(a: real, b: real): real {
    a * b
  }

  function Kernel(s: Sample, px: int, py: int): real {
    Product(Tent(s.x - px as real), Tent(s.y - py as real))
  }

  // What a list of samples leaves at one pixel, in value and in weight.
  function ValueAt(samples: seq<Sample>, px: int, py: int): real {
    if samples == [] then 0.0
    else
      var s := samples[|samples| - 1];
      ValueAt(samples[..|samples| - 1], px, py) + Product(s.value, Kernel(s, px, py))
  }

  function WeightAt(samples: seq<Sample>, px: int, py: int): real {
    if samples == [] then 0.0
    else WeightAt(samples[..|samples| - 1], px, py) + Kernel(samples[|samples| - 1], px, py)
  }

  // The arrays hold what these samples leave on a grid of zeros.
  ghost predicate Holds(accum: array2<real>, weight: array2<real>, samples: seq<Sample>)
    reads accum, weight
  {
    && weight.Length0 == accum.Length0 && weight.Length1 == accum.Length1
    && forall y, x :: 0 <= y < accum.Length0 && 0 <= x < accum.Length1 ==>
         accum[y, x] == ValueAt(samples, x, y) && weight[y, x] == WeightAt(samples, x, y)
  }

  // ---- addBilinearSample --------------------------------------------------

  method AddOne(accum: array2<real>, weight: array2<real>, px: int, py: int, value: real, w: real)
    requires accum != weight && weight.Length0 == accum.Length0 && weight.Length1 == accum.Length1
    modifies accum, weight
    ensures forall y, x :: 0 <= y < accum.Length0 && 0 <= x < accum.Length1 ==>
              accum[y, x] == old(accum[y, x]) + (if x == px && y == py then Product(value, w) else 0.0)
              && weight[y, x] == old(weight[y, x]) + (if x == px && y == py then w else 0.0)
  {
    if px < 0 || py < 0 || px >= accum.Length1 || py >= accum.Length0 { return; }
    accum[py, px] := accum[py, px] + Product(value, w);
    weight[py, px] := weight[py, px] + w;
  }

  // The four bilinear weights are the tent at the four neighbours, and the
  // tent is zero at every other pixel.
  lemma FourNeighbours(s: Sample, px: int, py: int)
    ensures var x0, y0 := s.x.Floor, s.y.Floor;
            var dx, dy := s.x - x0 as real, s.y - y0 as real;
            Kernel(s, px, py) ==
              if px == x0 && py == y0 then Product(1.0 - dx, 1.0 - dy)
              else if px == x0 + 1 && py == y0 then Product(dx, 1.0 - dy)
              else if px == x0 && py == y0 + 1 then Product(1.0 - dx, dy)
              else if px == x0 + 1 && py == y0 + 1 then Product(dx, dy)
              else 0.0
  {
    TentAt(s.x, px);
    TentAt(s.y, py);
  }

  lemma TentAt(v: real, p: int)
    ensures var f := v.Floor;
            Tent(v - p as real) ==
              if p == f then 1.0 - (v - f as real) else if p == f + 1 then v - f as real else 0.0
  {
    var f := v.Floor;
    if p < f {
      assert p as real <= f as real - 1.0;
    } else if p > f + 1 {
      assert p as real >= f as real + 2.0;
    }
  }

  lemma ProductZero(a: real)
    ensures Product(a, 0.0) == 0.0 && Product(0.0, a) == 0.0
  {
  }

  method AddBilinearSample(accum: array2<real>, weight: array2<real>, x: real, y: real, value: real)
    requires accum != weight && weight.Length0 == accum.Length0 && weight.Length1 == accum.Length1
    modifies accum, weight
    ensures forall py, px :: 0 <= py < accum.Length0 && 0 <= px < accum.Length1 ==>
              accum[py, px] == old(accum[py, px]) + Product(value, Kernel(Sample(x, y, value), px, py))
              && weight[py, px] == old(weight[py, px]) + Kernel(Sample(x, y, value), px, py)
  {
    hide Product, Kernel;
    var x0, y0 := x.Floor, y.Floor;
    var x1, y1 := x0 + 1, y0 + 1;
    var dx, dy := x - x0 as real, y - y0 as real;
    AddOne(accum, weight, x0, y0, value, Product(1.0 - dx, 1.0 - dy));
    AddOne(accum, weight, x1, y0, value, Product(dx, 1.0 - dy));
    AddOne(accum, weight, x0, y1, value, Product(1.0 - dx, dy));
    AddOne(accum, weight, x1, y1, value, Product(dx, dy));
    forall py, px | 0 <= py < accum.Length0 && 0 <= px < accum.Length1
      ensures accum[py, px] == old(accum[py, px]) + Product(value, Kernel(Sample(x, y, value), px, py))
           && weight[py, px] == old(weight[py, px]) + Kernel(Sample(x, y, value), px, py)
    {
      FourNeighbours(Sample(x, y, value), px, py);
      ProductZero(value);
    }
  }

  // The accumulator's inner loop over one packet of signals.
  method AddSignals(accum: array2<real>, weight: array2<real>, signals: seq<Sample>, ghost before: seq<Sample>)
    requires accum != weight && Holds(accum, weight, before)
    modifies accum, weight
    ensures Holds(accum, weight, before + signals)
  {
    hide Product, Kernel;
    assert before + [] == before;
    for i := 0 to |signals|
      invariant Holds(accum, weight, before + signals[..i])
    {
      var s := signals[i];
      AddBilinearSample(accum, weight, s.x, s.y, s.value);
      assert before + signals[..i + 1] == before + signals[..i] + [s];
      assert (before + signals[..i + 1])[..|before| + i] == before + signals[..i];
    }
    assert signals[..|signals|] == signals;
  }

  // ---- normalizeByWeight --------------------------------------------------

  const THRESHOLD: real := 0.000001

  function Quotient(a: real, w: real): real
    requires w > 0.0
  {
    a / w
  }

  method NormalizeByWeight(accum: array2<real>, weight: array2<real>) returns (recon: array2<real>)
    requires weight.Length0 == accum.Length0 && weight.Length1 == accum.Length1
    ensures fresh(recon) && recon.Length0 == accum.Length0 && recon.Length1 == accum.Length1
    ensures forall y, x :: 0 <= y < accum.Length0 && 0 <= x < accum.Length1 ==>
              recon[y, x] == if weight[y, x] > THRESHOLD then Quotient(accum[y, x], weight[y, x]) else 0.0
  {
    hide Quotient;
    recon := new real[accum.Length0, accum.Length1]((_, _) => 0.0);
    for y := 0 to accum.Length0
      invariant forall v, x :: 0 <= v < y && 0 <= x < accum.Length1 ==>
        recon[v, x] == if weight[v, x] > THRESHOLD then Quotient(accum[v, x], weight[v, x]) else 0.0
      invariant forall v, x :: y <= v < accum.Length0 && 0 <= x < accum.Length1 ==> recon[v, x] == 0.0
    {
      for x := 0 to accum.Length1
        invariant forall v, u :: 0 <= v < y && 0 <= u < accum.Length1 ==>
          recon[v, u] == if weight[v, u] > THRESHOLD then Quotient(accum[v, u], weight[v, u]) else 0.0
        invariant forall u :: 0 <= u < x ==>
          recon[y, u] == if weight[y, u] > THRESHOLD then Quotient(accum[y, u], weight[y, u]) else 0.0
        invariant forall u :: x <= u < accum.Length1 ==> recon[y, u] == 0.0
        invariant forall v, u :: y < v < accum.Length0 && 0 <= u < accum.Length1 ==> recon[v, u] == 0.0
      {
        var w := weight[y, x];
        if w > THRESHOLD { recon[y, x] := Quotient(accum[y, x], w); }
      }
    }
  }

  // ---- Every pixel is a weighted mean -------------------------------------

  // The reconstruction at one pixel.
  function ReconAt(samples: seq<Sample>, px: int, py: int): real {
    var w := WeightAt(samples, px, py);
    if w > THRESHOLD then Quotient(ValueAt(samples, px, py), w) else 0.0
  }

  // The samples near enough to the pixel to be felt there have values between
  // lo and hi.
  ghost predicate Between(samples: seq<Sample>, px: int, py: int, lo: real, hi: real) {
    forall s :: s in samples && Kernel(s, px, py) > 0.0 ==> lo <= s.value <= hi
  }

  lemma KernelNonNegative(s: Sample, px: int, py: int)
    ensures Kernel(s, px, py) >= 0.0
  {
    ProductNonNegative(Tent(s.x - px as real), Tent(s.y - py as real));
  }

  lemma ProductNonNegative(a: real, b: real)
    requires a >= 0.0 && b >= 0.0
    ensures Product(a, b) >= 0.0
  {
  }

  lemma ProductMonotone(a: real, b: real, k: real)
    requires a <= b && k >= 0.0
    ensures Product(a, k) <= Product(b, k)
  {
  }

  lemma ProductAdds(a: real, b: real, k: real)
    ensures Product(k, a + b) == Product(k, a) + Product(k, b) && Product(a + b, k) == Product(a, k) + Product(b, k)
  {
  }

  lemma {:induction false} ValueBounds(samples: seq<Sample>, px: int, py: int, lo: real, hi: real)
    requires Between(samples, px, py, lo, hi)
    ensures WeightAt(samples, px, py) >= 0.0
    ensures Product(lo, WeightAt(samples, px, py)) <= ValueAt(samples, px, py) <= Product(hi, WeightAt(samples, px, py))
  {
    hide Product, Kernel;
    if samples == [] {
      ProductZero(lo);
      ProductZero(hi);
    } else {
      var rest, s := samples[..|samples| - 1], samples[|samples| - 1];
      ValueBounds(rest, px, py, lo, hi);
      var k, w := Kernel(s, px, py), WeightAt(rest, px, py);
      KernelNonNegative(s, px, py);
      ProductAdds(w, k, lo);
      ProductAdds(w, k, hi);
      if k > 0.0 {
        ProductMonotone(lo, s.value, k);
        ProductMonotone(s.value, hi, k);
      } else {
        ProductZero(lo);
        ProductZero(hi);
        ProductZero(s.value);
      }
    }
  }

  lemma MeanBetween(a: real, w: real, lo: real, hi: real)
    requires w > 0.0 && Product(lo, w) <= a <= Product(hi, w)
    ensures lo <= Quotient(a, w) <= hi
  {
    var q := a / w;
    assert q * w == a;
  }

  // Main result: wherever the weight passes the threshold, the reconstruction
  // lies between the least and the greatest of the samples felt there; with
  // equal samples it is their value.
  lemma ReconIsBetween(samples: seq<Sample>, px: int, py: int, lo: real, hi: real)
    requires Between(samples, px, py, lo, hi) && WeightAt(samples, px, py) > THRESHOLD
    ensures lo <= ReconAt(samples, px, py) <= hi
  {
    hide Product, Kernel, Quotient;
    ValueBounds(samples, px, py, lo, hi);
    MeanBetween(ValueAt(samples, px, py), WeightAt(samples, px, py), lo, hi);
  }

  // A pixel has weight exactly when some sample lies strictly within one pixel
  // of it in both directions.
  lemma {:induction false} FeltIff(samples: seq<Sample>, px: int, py: int)
    ensures WeightAt(samples, px, py) >= 0.0
    ensures WeightAt(samples, px, py) > 0.0 <==>
              (exists s :: s in samples && -1.0 < s.x - px as real < 1.0 && -1.0 < s.y - py as real < 1.0)
  {
    hide Product;
    if samples != [] {
      var rest, s := samples[..|samples| - 1], samples[|samples| - 1];
      FeltIff(rest, px, py);
      assert samples == rest + [s];
      KernelPositiveIff(s, px, py);
    }
  }

  lemma KernelPositiveIff(s: Sample, px: int, py: int)
    ensures Kernel(s, px, py) >= 0.0
    ensures Kernel(s, px, py) > 0.0 <==> -1.0 < s.x - px as real < 1.0 && -1.0 < s.y - py as real < 1.0
  {
    var a, b := Tent(s.x - px as real), Tent(s.y - py as real);
    if a > 0.0 && b > 0.0 { assert a * b > 0.0; }
  }
}
