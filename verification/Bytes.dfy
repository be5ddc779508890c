// Machine integers and byte strings, with the fixed-width encodings that every
// wire format and spool file in the system is built from.
module Bytes {

  const TWO16: nat := 0x1_0000
  const TWO32: nat := 0x1_0000_0000
  const TWO64: nat := 0x1_0000_0000_0000_0000

  type byte = x: int | 0 <= x < 256 witness 0
  type u16 = x: int | 0 <= x < 0x1_0000 witness 0
  type u32 = x: int | 0 <= x < 0x1_0000_0000 witness 0
  type u64 = x: int | 0 <= x < 0x1_0000_0000_0000_0000 witness 0

  datatype Option<+T> = None | Some(value: T)

  function Pow256(n: nat): (p: nat)
    ensures p > 0
  {
    if n == 0 then 1 else 256 * Pow256(n - 1)
  }

  // Most significant byte first, as the append helpers push them.
  function ToBE(v: nat, n: nat): (bs: seq<byte>)
    ensures |bs| == n
  {
    if n == 0 then [] else ToBE(v / 256, n - 1) + [v % 256]
  }

  // Horner's rule, as the read helpers shift and or.
  function FromBE(bs: seq<byte>): nat
  {
    if bs == [] then 0 else FromBE(bs[..|bs| - 1]) * 256 + bs[|bs| - 1]
  }

  // Least significant byte first: the memory image of an integer on the target.
  function ToLE(v: nat, n: nat): (bs: seq<byte>)
    ensures |bs| == n
  {
    if n == 0 then [] else [v % 256] + ToLE(v / 256, n - 1)
  }

  function FromLE(bs: seq<byte>): nat
  {
    if bs == [] then 0 else bs[0] + 256 * FromLE(bs[1..])
  }

  lemma PowValues()
    ensures Pow256(2) == TWO16 && Pow256(4) == TWO32 && Pow256(8) == TWO64
  {
    assert Pow256(1) == 256;
    assert Pow256(3) == 256 * Pow256(2);
    assert Pow256(5) == 256 * Pow256(4);
    assert Pow256(6) == 256 * Pow256(5);
    assert Pow256(7) == 256 * Pow256(6);
  }

  lemma {:induction false} FromToBE(v: nat, n: nat)
    requires v < Pow256(n)
    ensures FromBE(ToBE(v, n)) == v
  {
    if n > 0 {
      FromToBE(v / 256, n - 1);
      assert ToBE(v, n)[..n - 1] == ToBE(v / 256, n - 1);
    }
  }

  lemma {:induction false} FromToLE(v: nat, n: nat)
    requires v < Pow256(n)
    ensures FromLE(ToLE(v, n)) == v
  {
    if n > 0 {
      FromToLE(v / 256, n - 1);
      assert ToLE(v, n)[1..] == ToLE(v / 256, n - 1);
    }
  }

  lemma {:induction false} FromBEBound(bs: seq<byte>)
    ensures FromBE(bs) < Pow256(|bs|)
  {
    if bs != [] {
      FromBEBound(bs[..|bs| - 1]);
    }
  }

  lemma {:induction false} FromLEBound(bs: seq<byte>)
    ensures FromLE(bs) < Pow256(|bs|)
  {
    if bs != [] {
      FromLEBound(bs[1..]);
    }
  }

  lemma {:induction false} FromBEInjective(a: seq<byte>, b: seq<byte>)
    requires |a| == |b| && FromBE(a) == FromBE(b)
    ensures a == b
  {
    if a != [] {
      FromBEInjective(a[..|a| - 1], b[..|b| - 1]);
      assert a == a[..|a| - 1] + [a[|a| - 1]];
      assert b == b[..|b| - 1] + [b[|b| - 1]];
    }
  }

  // The field writers by what they promise the readers: the one byte string of
  // that width which reads back as v.
  ghost function Put(v: nat, n: nat): (bs: seq<byte>)
    requires v < Pow256(n)
    ensures |bs| == n
  {
    FromToBE(v, n);
    var bs: seq<byte> :| |bs| == n && FromBE(bs) == v;
    bs
  }

  ghost function Put16(v: u16): (bs: seq<byte>)
    ensures |bs| == 2
  {
    Put(v, 2)
  }

  ghost function Put32(v: u32): (bs: seq<byte>)
    ensures |bs| == 4
  {
    Put(v, 4)
  }

  ghost function Put64(v: u64): (bs: seq<byte>)
    ensures |bs| == 8
  {
    PowValues();
    Put(v, 8)
  }

  lemma {:induction false} FromLEInjective(a: seq<byte>, b: seq<byte>)
    requires |a| == |b| && FromLE(a) == FromLE(b)
    ensures a == b
  {
    if a != [] {
      FromLEInjective(a[1..], b[1..]);
      assert a == [a[0]] + a[1..];
      assert b == [b[0]] + b[1..];
    }
  }

  // The memory image of an integer, by what reading it back gives.
  ghost function PutLE(v: nat, n: nat): (bs: seq<byte>)
    requires v < Pow256(n)
    ensures |bs| == n
  {
    FromToLE(v, n);
    var bs: seq<byte> :| |bs| == n && FromLE(bs) == v;
    bs
  }

  lemma PutLEReads(v: nat, n: nat)
    requires v < Pow256(n)
    ensures FromLE(PutLE(v, n)) == v
  {
    FromToLE(v, n);
  }

  method LEImage(v: nat, n: nat) returns (bs: seq<byte>)
    requires v < Pow256(n)
    ensures bs == PutLE(v, n)
  {
    bs := ToLE(v, n);
    FromToLE(v, n);
    PutLEReads(v, n);
    FromLEInjective(bs, PutLE(v, n));
  }

  // Bounded readers for the three field widths.
  function Read16(bs: seq<byte>): u16
    requires |bs| == 2
  {
    FromBEBound(bs); PowValues();
    FromBE(bs)
  }

  function Read32(bs: seq<byte>): u32
    requires |bs| == 4
  {
    FromBEBound(bs); PowValues();
    FromBE(bs)
  }

  function Read64(bs: seq<byte>): u64
    requires |bs| == 8
  {
    FromBEBound(bs); PowValues();
    FromBE(bs)
  }

  lemma ReadPut(v16: u16, v32: u32, v64: u64)
    ensures Read16(Put16(v16)) == v16 && Read32(Put32(v32)) == v32 && Read64(Put64(v64)) == v64
  {
    PowValues();
  }

  lemma PutRead16(bs: seq<byte>)
    requires |bs| == 2
    ensures Put16(Read16(bs)) == bs
  {
    FromBEInjective(Put16(Read16(bs)), bs);
  }

  lemma PutRead32(bs: seq<byte>)
    requires |bs| == 4
    ensures Put32(Read32(bs)) == bs
  {
    FromBEInjective(Put32(Read32(bs)), bs);
  }

  lemma PutRead64(bs: seq<byte>)
    requires |bs| == 8
    ensures Put64(Read64(bs)) == bs
  {
    PowValues();
    FromBEInjective(Put64(Read64(bs)), bs);
  }

  lemma FourDigits(b: seq<byte>)
    requires |b| == 4
    ensures FromBE(b) == 0x100_0000 * (b[0] as int) + 0x1_0000 * (b[1] as int) + 0x100 * (b[2] as int) + b[3] as int
  {
    AppendDigit([], b[0]); AppendDigit([b[0]], b[1]);
    AppendDigit([b[0], b[1]], b[2]); AppendDigit([b[0], b[1], b[2]], b[3]);
    assert [] + [b[0]] == [b[0]];
    assert [b[0]] + [b[1]] == [b[0], b[1]];
    assert [b[0], b[1]] + [b[2]] == [b[0], b[1], b[2]];
    assert [b[0], b[1], b[2]] + [b[3]] == b;
  }

  lemma ShiftedBytes(v: u32)
    ensures v / 0x100_0000 % 256 == v / 0x100_0000
    ensures v == 0x100_0000 * (v / 0x100_0000) + 0x1_0000 * (v / 0x1_0000 % 256) + 0x100 * (v / 0x100 % 256) + v % 256
  {
    assert v / 0x100 / 256 == v / 0x1_0000 && v / 0x1_0000 / 256 == v / 0x100_0000;
  }

  // The append helpers: shift, mask, push.
  method AppendUint16(buffer: seq<byte>, value: u16) returns (r: seq<byte>)
    ensures r == buffer + Put16(value)
  {
    ghost var bs: seq<byte> := [value / 0x100 % 256, value % 256];
    AppendDigit([], bs[0]); AppendDigit([bs[0]], bs[1]);
    assert [] + [bs[0]] == [bs[0]] && [bs[0]] + [bs[1]] == bs;
    PutRead16(bs);
    r := buffer + [value / 0x100 % 256, value % 256];
  }

  method AppendUint32(buffer: seq<byte>, value: u32) returns (r: seq<byte>)
    ensures r == buffer + Put32(value)
  {
    ghost var bs: seq<byte> :=
      [value / 0x100_0000 % 256, value / 0x1_0000 % 256, value / 0x100 % 256, value % 256];
    FourDigits(bs);
    ShiftedBytes(value);
    PutRead32(bs);
    r := buffer + [value / 0x100_0000 % 256, value / 0x1_0000 % 256, value / 0x100 % 256, value % 256];
  }

  method AppendUint64(buffer: seq<byte>, value: u64) returns (r: seq<byte>)
    ensures r == buffer + Put64(value)
  {
    var high, low := value / 0x1_0000_0000, value % 0x1_0000_0000;
    r := AppendUint32(buffer, high);
    r := AppendUint32(r, low);
    ghost var bs := Put32(high) + Put32(low);
    Join32(Put32(high), Put32(low));
    PutRead64(bs);
    assert r == buffer + bs;
  }

  lemma Join32(a: seq<byte>, b: seq<byte>)
    requires |b| == 4
    ensures FromBE(a + b) == FromBE(a) * 0x1_0000_0000 + FromBE(b)
  {
    AppendDigit(a, b[0]); AppendDigit(a + [b[0]], b[1]);
    AppendDigit(a + [b[0], b[1]], b[2]); AppendDigit(a + [b[0], b[1], b[2]], b[3]);
    assert a + [b[0]] + [b[1]] == a + [b[0], b[1]];
    assert a + [b[0], b[1]] + [b[2]] == a + [b[0], b[1], b[2]];
    assert a + [b[0], b[1], b[2]] + [b[3]] == a + b;
    FourDigits(b);
  }

  lemma AppendDigit(a: seq<byte>, d: byte)
    ensures FromBE(a + [d]) == FromBE(a) * 256 + d
  {
    assert (a + [d])[..|a|] == a;
  }

  lemma SliceOfSlice<T>(s: seq<T>, a: nat, b: nat, c: nat, d: nat)
    requires a <= b <= |s| && c <= d <= b - a
    ensures s[a..b][c..d] == s[a + c..a + d]
  {
    forall i | 0 <= i < d - c ensures s[a..b][c..d][i] == s[a + c..a + d][i] {
      assert s[a..b][c + i] == s[a + c + i];
    }
  }

  lemma MulMonotone(a: nat, b: nat, c: nat)
    requires a <= b
    ensures a * c <= b * c
  {
  }

  lemma QuotientBounds(n: nat, d: nat)
    requires d > 0
    ensures (n / d) * d <= n < (n / d) * d + d
  {
    assert n == (n / d) * d + n % d;
  }

  lemma ModSmall(n: nat, d: nat)
    requires n < d
    ensures n % d == n
  {
  }

  lemma QuotientAtMost(n: nat, d: nat)
    requires d > 0
    ensures n / d <= n
  {
    QuotientBounds(n, d);
    MulMonotone(1, d, n / d);
  }

  // Truncating casts, multiplication and unsigned division, by the facts that
  // the fragment arithmetic rests on.
  function Cut32(n: nat): (r: u32)
    ensures r <= n && (n < TWO32 ==> r == n)
  {
    n % TWO32
  }

  function Cut64(n: nat): (r: u64)
    ensures r <= n && (n < TWO64 ==> r == n)
  {
    n % TWO64
  }

  function Times(a: nat, b: nat): nat {
    a * b
  }

  function Quotient(n: nat, d: nat): (q: nat)
    requires d > 0
    ensures q <= n && Times(q, d) <= n < Times(q, d) + d
  {
    QuotientAtMost(n, d);
    QuotientBounds(n, d);
    n / d
  }

  lemma TimesMonotone(a: nat, b: nat, c: nat)
    requires a <= b
    ensures Times(a, c) <= Times(b, c)
  {
  }

  lemma TimesSuccessor(a: nat, c: nat)
    ensures Times(0, c) == 0 && Times(a + 1, c) == Times(a, c) + c
  {
  }

  lemma TimesAtLeastDouble(a: nat, d: nat)
    requires d >= 2
    ensures Times(a, d) >= 2 * a
  {
    MulMonotone(2, d, a);
  }
}
