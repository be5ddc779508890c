// What bilinear accumulation conserves over the whole grid: total weight,
// total value, and the first moments, whatever the samples.
module BilinearConservation {
  import opened Bilinear

  type Field = (int, int) -> real

  // Sums of field(x, y) times an affine function of x (and y), from zero up to
  // n columns and m rows.
  function RowDot(f: Field, y: nat, n: nat, a: real, b: real): real {
    if n == 0 then 0.0
    else RowDot(f, y, n - 1, a, b) + Product(a + Product(b, (n - 1) as real), f(n - 1, y))
  }

  function GridDot(f: Field, rows: nat, cols: nat, a: real, b: real, c: real): real {
    if rows == 0 then 0.0
    else GridDot(f, rows - 1, cols, a, b, c)
         + RowDot(f, rows - 1, cols, a + Product(c, (rows - 1) as real), b)
  }

  // The same along one axis, for a tent at v.
  function Axis(v: real, n: nat, a: real, b: real): real {
    if n == 0 then 0.0
    else Axis(v, n - 1, a, b) + Product(a + Product(b, (n - 1) as real), Tent(v - (n - 1) as real))
  }

  // ---- Arithmetic ---------------------------------------------------------

  lemma ProductSwaps(a: real, b: real, c: real)
    ensures Product(a, b) == Product(b, a) && Product(a, Product(b, c)) == Product(b, Product(a, c))
  {
    assert a * (b * c) == b * (a * c);
  }

  lemma ProductOne(a: real)
    ensures Product(a, 1.0) == a && Product(1.0, a) == a
  {
  }

  lemma Interpolates(a: real, b: real, k: real, t: real)
    ensures Product(a + Product(b, k), 1.0 - t) + Product(a + Product(b, k + 1.0), t) == a + Product(b, k + t)
  {
  }

  // ---- One axis -----------------------------------------------------------

  lemma {:induction false} AxisBeyond(v: real, n: nat, a: real, b: real)
    requires v >= n as real || v <= -1.0
    ensures Axis(v, n, a, b) == 0.0
  {
    hide Product;
    if n > 0 {
      AxisBeyond(v, n - 1, a, b);
      ProductZero(a + Product(b, (n - 1) as real));
    }
  }

  // Inside the axis the tent weighs affine functions exactly.
  lemma {:induction false} AxisInside(v: real, n: nat, a: real, b: real)
    requires 0.0 <= v <= n as real - 1.0
    ensures Axis(v, n, a, b) == a + Product(b, v)
  {
    hide Product;
    var last := (n - 1) as real;
    if n == 1 {
      ProductOne(a + Product(b, last));
      assert Axis(v, 0, a, b) == 0.0;
    } else if v <= last - 1.0 {
      AxisInside(v, n - 1, a, b);
      ProductZero(a + Product(b, last));
    } else {
      AxisBeyond(v, n - 2, a, b);
      Interpolates(a, b, last - 1.0, v - last + 1.0);
    }
  }

  // The tent's own sum is one exactly inside the axis, and less elsewhere.
  lemma {:induction false} TentSum(v: real, n: nat)
    ensures 0.0 <= Axis(v, n, 1.0, 0.0) <= 1.0
    ensures Axis(v, n, 1.0, 0.0) == 1.0 <==> 0.0 <= v <= n as real - 1.0
  {
    hide Product;
    if 0.0 <= v <= n as real - 1.0 {
      AxisInside(v, n, 1.0, 0.0);
      ProductZero(v);
    } else if v >= n as real || v <= -1.0 {
      AxisBeyond(v, n, 1.0, 0.0);
    } else if v < 0.0 {
      TentSumBefore(v, n);
    } else {
      AxisBeyond(v, n - 1, 1.0, 0.0);
      ProductZero((n - 1) as real);
      ProductOne(Tent(v - (n - 1) as real));
    }
  }

  lemma {:induction false} TentSumBefore(v: real, n: nat)
    requires -1.0 < v < 0.0
    ensures Axis(v, n, 1.0, 0.0) == if n == 0 then 0.0 else 1.0 + v
  {
    hide Product;
    if n > 0 {
      TentSumBefore(v, n - 1);
      ProductZero((n - 1) as real);
      ProductOne(Tent(v - (n - 1) as real));
    }
  }

  // ---- One sample ---------------------------------------------------------

  function KernelField(s: Sample): Field {
    (x, y) => Kernel(s, x, y)
  }

  ghost predicate Inside(s: Sample, rows: nat, cols: nat) {
    0.0 <= s.x <= cols as real - 1.0 && 0.0 <= s.y <= rows as real - 1.0
  }

  lemma {:induction false} KernelRow(s: Sample, y: nat, n: nat, a: real, b: real)
    ensures RowDot(KernelField(s), y, n, a, b) == Product(Tent(s.y - y as real), Axis(s.x, n, a, b))
  {
    hide Product;
    if n == 0 {
      ProductZero(Tent(s.y - y as real));
    } else {
      KernelRow(s, y, n - 1, a, b);
      var k, u, t := a + Product(b, (n - 1) as real), Tent(s.x - (n - 1) as real), Tent(s.y - y as real);
      ProductAdds(Axis(s.x, n - 1, a, b), Product(k, u), t);
      ProductSwaps(t, k, u);
      ProductSwaps(k, t, u);
      ProductSwaps(u, t, k);
    }
  }

  // The grid sum of a kernel is a sum along y of what the x axis gives.
  lemma {:induction false} KernelGrid(s: Sample, rows: nat, cols: nat, a: real, b: real, c: real)
    requires 0.0 <= s.x <= cols as real - 1.0
    ensures GridDot(KernelField(s), rows, cols, a, b, c) == Axis(s.y, rows, a + Product(b, s.x), c)
  {
    hide Product;
    if rows > 0 {
      KernelGrid(s, rows - 1, cols, a, b, c);
      var k, t := a + Product(c, (rows - 1) as real), Tent(s.y - (rows - 1) as real);
      KernelRow(s, rows - 1, cols, k, b);
      AxisInside(s.x, cols, k, b);
      ProductSwaps(t, k + Product(b, s.x), 0.0);
    }
  }

  lemma KernelWeighsAffine(s: Sample, rows: nat, cols: nat, a: real, b: real, c: real)
    requires Inside(s, rows, cols)
    ensures GridDot(KernelField(s), rows, cols, a, b, c) == a + Product(b, s.x) + Product(c, s.y)
  {
    hide Product;
    KernelGrid(s, rows, cols, a, b, c);
    AxisInside(s.y, rows, a + Product(b, s.x), c);
  }

  lemma {:induction false} KernelTotal(s: Sample, rows: nat, cols: nat)
    ensures GridDot(KernelField(s), rows, cols, 1.0, 0.0, 0.0)
            == Product(Axis(s.y, rows, 1.0, 0.0), Axis(s.x, cols, 1.0, 0.0))
  {
    hide Product;
    var across := Axis(s.x, cols, 1.0, 0.0);
    if rows == 0 {
      ProductZero(across);
    } else {
      KernelTotal(s, rows - 1, cols);
      var t := Tent(s.y - (rows - 1) as real);
      ProductZero((rows - 1) as real);
      KernelRow(s, rows - 1, cols, 1.0, 0.0);
      ProductAdds(Axis(s.y, rows - 1, 1.0, 0.0), t, across);
      ProductOne(t);
    }
  }

  lemma UnitProduct(p: real, q: real)
    requires 0.0 <= p <= 1.0 && 0.0 <= q <= 1.0
    ensures 0.0 <= Product(p, q) <= 1.0 && (Product(p, q) == 1.0 <==> p == 1.0 && q == 1.0)
  {
    assert p * q <= q;
    assert p * q <= p;
  }

  // A sample brings a weight of one to the grid exactly when it lies inside.
  lemma KernelTotalIff(s: Sample, rows: nat, cols: nat)
    ensures 0.0 <= GridDot(KernelField(s), rows, cols, 1.0, 0.0, 0.0) <= 1.0
    ensures GridDot(KernelField(s), rows, cols, 1.0, 0.0, 0.0) == 1.0 <==> Inside(s, rows, cols)
  {
    hide Product, Axis, GridDot;
    KernelTotal(s, rows, cols);
    TentSum(s.x, cols);
    TentSum(s.y, rows);
    UnitProduct(Axis(s.y, rows, 1.0, 0.0), Axis(s.x, cols, 1.0, 0.0));
  }

  // ---- All samples --------------------------------------------------------

  function WeightField(samples: seq<Sample>): Field {
    (x, y) => WeightAt(samples, x, y)
  }

  function ValueField(samples: seq<Sample>): Field {
    (x, y) => ValueAt(samples, x, y)
  }

  lemma {:induction false} RowDotLinear(f: Field, g: Field, h: Field, v: real, y: nat, n: nat, a: real, b: real)
    requires forall x, z :: h(x, z) == f(x, z) + Product(v, g(x, z))
    ensures RowDot(h, y, n, a, b) == RowDot(f, y, n, a, b) + Product(v, RowDot(g, y, n, a, b))
  {
    hide Product;
    if n == 0 {
      ProductZero(v);
    } else {
      RowDotLinear(f, g, h, v, y, n - 1, a, b);
      var k := a + Product(b, (n - 1) as real);
      ProductAdds(f(n - 1, y), Product(v, g(n - 1, y)), k);
      ProductSwaps(k, v, g(n - 1, y));
      ProductAdds(RowDot(g, y, n - 1, a, b), Product(k, g(n - 1, y)), v);
      assert h(n - 1, y) == f(n - 1, y) + Product(v, g(n - 1, y));
    }
  }

  lemma {:induction false} GridDotLinear(f: Field, g: Field, h: Field, v: real, rows: nat, cols: nat, a: real, b: real, c: real)
    requires forall x, z :: h(x, z) == f(x, z) + Product(v, g(x, z))
    ensures GridDot(h, rows, cols, a, b, c) == GridDot(f, rows, cols, a, b, c) + Product(v, GridDot(g, rows, cols, a, b, c))
  {
    hide Product;
    if rows == 0 {
      ProductZero(v);
    } else {
      var k := a + Product(c, (rows - 1) as real);
      GridDotLinear(f, g, h, v, rows - 1, cols, a, b, c);
      RowDotLinear(f, g, h, v, rows - 1, cols, k, b);
      ProductAdds(GridDot(g, rows - 1, cols, a, b, c), RowDot(g, rows - 1, cols, k, b), v);
    }
  }

  // The affine function summed over the samples, plain and times their values.
  function AffineSum(samples: seq<Sample>, a: real, b: real, c: real): real {
    if samples == [] then 0.0
    else
      var s := samples[|samples| - 1];
      AffineSum(samples[..|samples| - 1], a, b, c) + (a + Product(b, s.x) + Product(c, s.y))
  }

  function ValueSum(samples: seq<Sample>, a: real, b: real, c: real): real {
    if samples == [] then 0.0
    else
      var s := samples[|samples| - 1];
      ValueSum(samples[..|samples| - 1], a, b, c) + Product(s.value, a + Product(b, s.x) + Product(c, s.y))
  }

  lemma ZeroField(f: Field, rows: nat, cols: nat, a: real, b: real, c: real)
    requires forall x, y :: f(x, y) == 0.0
    ensures GridDot(f, rows, cols, a, b, c) == 0.0
  {
    hide Product;
    GridDotLinear(f, f, f, 1.0, rows, cols, a, b, c) by {
      ProductOne(0.0);
    }
    ProductOne(GridDot(f, rows, cols, a, b, c));
  }

  // Main result: if every sample lies inside the grid, every affine function
  // summed over the weights, or over the accumulated values, is the same sum
  // over the samples: total weight, total value, and both first moments.
  lemma {:induction false} AffineConserved(samples: seq<Sample>, rows: nat, cols: nat, a: real, b: real, c: real)
    requires forall s :: s in samples ==> Inside(s, rows, cols)
    ensures GridDot(WeightField(samples), rows, cols, a, b, c) == AffineSum(samples, a, b, c)
    ensures GridDot(ValueField(samples), rows, cols, a, b, c) == ValueSum(samples, a, b, c)
  {
    hide Product, Kernel, GridDot;
    if samples == [] {
      ZeroField(WeightField([]), rows, cols, a, b, c);
      ZeroField(ValueField([]), rows, cols, a, b, c);
    } else {
      var rest, s := samples[..|samples| - 1], samples[|samples| - 1];
      AffineConserved(rest, rows, cols, a, b, c);
      LastWeight(samples, rows, cols, a, b, c);
      GridDotLinear(ValueField(rest), KernelField(s), ValueField(samples), s.value, rows, cols, a, b, c);
      KernelWeighsAffine(s, rows, cols, a, b, c);
    }
  }

  lemma LastWeight(samples: seq<Sample>, rows: nat, cols: nat, a: real, b: real, c: real)
    requires samples != []
    ensures GridDot(WeightField(samples), rows, cols, a, b, c) ==
              GridDot(WeightField(samples[..|samples| - 1]), rows, cols, a, b, c)
              + GridDot(KernelField(samples[|samples| - 1]), rows, cols, a, b, c)
  {
    hide Product, Kernel, GridDot;
    var rest, s := samples[..|samples| - 1], samples[|samples| - 1];
    forall x, y ensures WeightField(samples)(x, y) == WeightField(rest)(x, y) + Product(1.0, KernelField(s)(x, y)) {
      ProductOne(Kernel(s, x, y));
    }
    GridDotLinear(WeightField(rest), KernelField(s), WeightField(samples), 1.0, rows, cols, a, b, c);
    ProductOne(GridDot(KernelField(s), rows, cols, a, b, c));
  }

  // Main result: the total weight never exceeds the number of samples, and
  // equals it exactly when every sample lies inside the grid.
  lemma {:induction false} TotalWeightIff(samples: seq<Sample>, rows: nat, cols: nat)
    ensures 0.0 <= GridDot(WeightField(samples), rows, cols, 1.0, 0.0, 0.0) <= |samples| as real
    ensures GridDot(WeightField(samples), rows, cols, 1.0, 0.0, 0.0) == |samples| as real
            <==> (forall s :: s in samples ==> Inside(s, rows, cols))
  {
    hide Product, Kernel, GridDot;
    if samples == [] {
      ZeroField(WeightField([]), rows, cols, 1.0, 0.0, 0.0);
    } else {
      var rest, s := samples[..|samples| - 1], samples[|samples| - 1];
      TotalWeightIff(rest, rows, cols);
      LastWeight(samples, rows, cols, 1.0, 0.0, 0.0);
      KernelTotalIff(s, rows, cols);
      assert samples == rest + [s];
    }
  }

  // ---- The arrays themselves ----------------------------------------------

  ghost function Snapshot(m: array2<real>): seq<seq<real>>
    reads m
  {
    seq(m.Length0, y requires 0 <= y < m.Length0 reads m =>
      seq(m.Length1, x requires 0 <= x < m.Length1 reads m => m[y, x]))
  }

  function FieldOf(g: seq<seq<real>>): Field {
    (x, y) => if 0 <= y < |g| && 0 <= x < |g[y]| then g[y][x] else 0.0
  }

  lemma {:induction false} RowDotAgrees(f: Field, g: Field, y: nat, n: nat, a: real, b: real)
    requires forall x :: 0 <= x < n ==> f(x, y) == g(x, y)
    ensures RowDot(f, y, n, a, b) == RowDot(g, y, n, a, b)
  {
    hide Product;
    if n > 0 { RowDotAgrees(f, g, y, n - 1, a, b); }
  }

  lemma {:induction false} GridDotAgrees(f: Field, g: Field, rows: nat, cols: nat, a: real, b: real, c: real)
    requires forall x, y :: 0 <= x < cols && 0 <= y < rows ==> f(x, y) == g(x, y)
    ensures GridDot(f, rows, cols, a, b, c) == GridDot(g, rows, cols, a, b, c)
  {
    hide Product;
    if rows > 0 {
      GridDotAgrees(f, g, rows - 1, cols, a, b, c);
      RowDotAgrees(f, g, rows - 1, cols, a + Product(c, (rows - 1) as real), b);
    }
  }

  // What AddSignals leaves in the two matrices adds up to the samples.
  lemma ArraysConserve(accum: array2<real>, weight: array2<real>, samples: seq<Sample>, a: real, b: real, c: real)
    requires Holds(accum, weight, samples)
    requires forall s :: s in samples ==> Inside(s, accum.Length0, accum.Length1)
    ensures GridDot(FieldOf(Snapshot(weight)), accum.Length0, accum.Length1, a, b, c) == AffineSum(samples, a, b, c)
    ensures GridDot(FieldOf(Snapshot(accum)), accum.Length0, accum.Length1, a, b, c) == ValueSum(samples, a, b, c)
  {
    hide GridDot;
    AffineConserved(samples, accum.Length0, accum.Length1, a, b, c);
    GridDotAgrees(FieldOf(Snapshot(weight)), WeightField(samples), accum.Length0, accum.Length1, a, b, c);
    GridDotAgrees(FieldOf(Snapshot(accum)), ValueField(samples), accum.Length0, accum.Length1, a, b, c);
  }
}
