/** The CP2102N configuration checksum: 16-bit accumulators that start at 0xff, with the modular
    reduction deferred across 20-byte chunks. */
module Fletcher {
  import opened Common

  type Word16 = x: int | 0 <= x < 0x1_0000

  function Wrap16(x: nat): Word16 {
    x % 0x1_0000
  }

  /** (s & 0xff) + (s >> 8). */
  function Fold(s: nat): nat {
    s % 256 + s / 256
  }

  function Sum(bytes: Bytes): nat {
    if bytes == [] then 0 else bytes[0] + Sum(bytes[1..])
  }

  /** Every byte weighted with its distance from the end. */
  function WeightedSum(bytes: Bytes): nat {
    if bytes == [] then 0 else |bytes| * bytes[0] + WeightedSum(bytes[1..])
  }

  /** The representative modulo 255 in 1..255. */
  function Rep(v: int): nat {
    if v % 255 == 0 then 255 else v % 255
  }

  function Checksum(bytes: Bytes): Word16 {
    Rep(WeightedSum(bytes)) * 256 + Rep(Sum(bytes))
  }

  lemma {:induction false} SumSnoc(bytes: Bytes, b: byte)
    ensures Sum(bytes + [b]) == Sum(bytes) + b
    ensures WeightedSum(bytes + [b]) == WeightedSum(bytes) + Sum(bytes) + b
  {
    if bytes == [] {
      assert [] + [b] == [b];
    } else {
      SumSnoc(bytes[1..], b);
      var all := bytes + [b];
      assert all[1..] == bytes[1..] + [b] && all[0] == bytes[0];
      assert |all| * bytes[0] == |bytes| * bytes[0] + bytes[0];
    }
  }

  // ---------- exact accumulators within a chunk ----------

  /** sum1 after the bytes of a chunk, without reduction or wrap-around. */
  function Acc1(s1: nat, chunk: Bytes): nat {
    s1 + Sum(chunk)
  }

  function Acc2(s1: nat, s2: nat, chunk: Bytes): nat {
    if chunk == [] then s2
    else Acc2(s1, s2, chunk[..|chunk| - 1]) + Acc1(s1, chunk)
  }

  function Triangle(n: nat): nat {
    if n == 0 then 0 else Triangle(n - 1) + n
  }

  lemma {:induction false} AccBound(s1: nat, s2: nat, chunk: Bytes)
    ensures Acc1(s1, chunk) <= s1 + 255 * |chunk|
    ensures Acc2(s1, s2, chunk) <= s2 + |chunk| * s1 + 255 * Triangle(|chunk|)
  {
    if chunk != [] {
      var init := chunk[..|chunk| - 1];
      AccBound(s1, s2, init);
      SumSnoc(init, chunk[|chunk| - 1]);
      assert init + [chunk[|chunk| - 1]] == chunk;
      assert |init| * s1 + s1 == |chunk| * s1;
    }
  }

  lemma {:induction false} TriangleIs(n: nat)
    ensures 2 * Triangle(n) == n * (n + 1)
  {
    if n > 0 {
      TriangleIs(n - 1);
      assert (n - 1) * n + 2 * n == n * (n + 1);
    }
  }

  /** Within a chunk of at most 20 bytes neither accumulator can exceed 16 bits, when both start
      from folded values. */
  lemma NoOverflow(s1: nat, s2: nat, chunk: Bytes)
    requires s1 <= 0x1fe && s2 <= 0x1fe && |chunk| <= 20
    ensures Acc1(s1, chunk) <= 5610 && Acc2(s1, s2, chunk) <= 64260
  {
    hide Acc1, Acc2, Triangle;
    AccBound(s1, s2, chunk);
    TriangleIs(|chunk|);
    MulBound(|chunk|, s1, 20, 0x1fe);
    MulBound(|chunk|, |chunk| + 1, 20, 21);
  }

  lemma MulBound(a: nat, b: nat, a': nat, b': nat)
    requires a <= a' && b <= b'
    ensures a * b <= a' * b'
  {
    assert a * b <= a' * b <= a' * b';
  }

  /** 20 is the largest chunk length for which that holds. */
  lemma TwentyOneOverflows(chunk: Bytes)
    requires |chunk| == 21 && forall i :: 0 <= i < 21 ==> chunk[i] == 0xff
    ensures Acc2(0x1fe, 0x1fe, chunk) > 0xffff
  {
    FullChunk(chunk);
    TriangleIs(21);
  }

  lemma {:induction false} FullChunk(chunk: Bytes)
    requires forall i :: 0 <= i < |chunk| ==> chunk[i] == 0xff
    ensures Sum(chunk) == 255 * |chunk|
    ensures Acc2(0x1fe, 0x1fe, chunk) == 0x1fe + |chunk| * 0x1fe + 255 * Triangle(|chunk|)
  {
    if chunk != [] {
      var init := chunk[..|chunk| - 1];
      FullChunk(init);
      SumSnoc(init, chunk[|chunk| - 1]);
      assert init + [chunk[|chunk| - 1]] == chunk;
    }
  }

  // ---------- congruence modulo 255 ----------

  predicate Cong(a: int, b: int) {
    a % 255 == b % 255
  }

  lemma FoldCong(s: nat)
    ensures Cong(Fold(s), s)
    ensures s > 0 ==> Fold(s) > 0
    ensures s < 0x1_0000 ==> Fold(s) <= 0x1fe
    ensures s <= 0x1fe ==> Fold(s) <= 0xff
  {
    assert s == Fold(s) + 255 * (s / 256);
  }

  lemma CongAdd(a: int, b: int, c: int, d: int)
    requires Cong(a, b) && Cong(c, d)
    ensures Cong(a + c, b + d)
  {
  }

  lemma CongTrans(a: int, b: int, c: int)
    requires Cong(a, b) && Cong(b, c)
    ensures Cong(a, c)
  {
  }

  lemma RepUnique(r: int, v: int)
    requires 1 <= r <= 255 && Cong(r, v)
    ensures r == Rep(v)
  {
  }

  /** Accumulators that represent the bytes so far represent the bytes after the chunk too. */
  lemma {:induction false} AccCong(s1: nat, s2: nat, before: Bytes, chunk: Bytes)
    requires Cong(s1, Sum(before)) && Cong(s2, WeightedSum(before))
    ensures Cong(Acc1(s1, chunk), Sum(before + chunk))
    ensures Cong(Acc2(s1, s2, chunk), WeightedSum(before + chunk))
  {
    hide Cong;
    if chunk == [] {
      assert before + chunk == before;
    } else {
      var init, b := chunk[..|chunk| - 1], chunk[|chunk| - 1];
      AccCong(s1, s2, before, init);
      SumSnoc(init, b);
      SumSnoc(before + init, b);
      assert init + [b] == chunk && before + init + [b] == before + chunk;
      CongAdd(Acc1(s1, init), Sum(before + init), b, b);
      CongAdd(Acc2(s1, s2, init), WeightedSum(before + init), Acc1(s1, chunk), Sum(before + chunk));
    }
  }

  /** The inner loop: one chunk, with 16-bit accumulators that could wrap but do not. */
  method AddChunk(bytes: Bytes, start: nat, count: nat, s1: Word16, s2: Word16) returns (sum1: Word16, sum2: Word16)
    requires 0 < count <= 20 && start + count <= |bytes|
    requires 0 < s1 <= 0x1fe && 0 < s2 <= 0x1fe
    ensures sum1 == Acc1(s1, bytes[start..start + count]) && sum2 == Acc2(s1, s2, bytes[start..start + count])
  {
    sum1, sum2 := s1, s2;
    var tlen, next := count, start;
    while tlen > 0
      invariant 0 <= tlen <= count && next + tlen == start + count
      invariant sum1 == Acc1(s1, bytes[start..next])
      invariant sum2 == Acc2(s1, s2, bytes[start..next])
    {
      ghost var chunk := bytes[start..next + 1];
      assert chunk[..|chunk| - 1] == bytes[start..next];
      SumSnoc(bytes[start..next], bytes[next]);
      assert bytes[start..next] + [bytes[next]] == chunk;
      NoOverflow(s1, s2, chunk);
      sum1 := Wrap16(sum1 + bytes[next]);
      sum2 := Wrap16(sum2 + sum1);
      next := next + 1;
      tlen := tlen - 1;
    }
  }

  /** fletcher16 as written. Its value is a one-line definition: the byte sum and the weighted byte
      sum, each represented modulo 255 in 1..255. */
  method Fletcher16(bytes: Bytes) returns (checksum: Word16)
    requires |bytes| < 0x1_0000
    ensures checksum == Checksum(bytes)
  {
    hide Cong, Sum, WeightedSum, Acc1, Acc2, Fold, Rep;
    StartCong();
    var sum1: Word16, sum2: Word16 := 0xff, 0xff;
    var len: Word16 := |bytes|;
    var next := 0;
    while len > 0
      invariant next + len == |bytes|
      invariant 0 < sum1 <= 0x1fe && 0 < sum2 <= 0x1fe
      invariant Cong(sum1, Sum(bytes[..next])) && Cong(sum2, WeightedSum(bytes[..next]))
    {
      var tlen := if len >= 20 then 20 else len;
      len := len - tlen;
      ghost var chunk := bytes[next..next + tlen];
      AccCong(sum1, sum2, bytes[..next], chunk);
      AccGrows(sum1, sum2, chunk);
      assert bytes[..next] + chunk == bytes[..next + tlen];
      sum1, sum2 := AddChunk(bytes, next, tlen, sum1, sum2);
      next := next + tlen;
      FoldCong(sum1);
      FoldCong(sum2);
      CongTrans(Fold(sum1), sum1, Sum(bytes[..next]));
      CongTrans(Fold(sum2), sum2, WeightedSum(bytes[..next]));
      sum1 := Fold(sum1);
      sum2 := Fold(sum2);
    }
    assert bytes[..next] == bytes;
    FoldCong(sum1);
    FoldCong(sum2);
    CongTrans(Fold(sum1), sum1, Sum(bytes));
    CongTrans(Fold(sum2), sum2, WeightedSum(bytes));
    sum1 := Fold(sum1);
    sum2 := Fold(sum2);
    RepUnique(sum1, Sum(bytes));
    RepUnique(sum2, WeightedSum(bytes));
    // sum1 has eight bits, so the bitwise or is an addition.
    checksum := sum2 * 256 + sum1;
  }

  lemma StartCong()
    ensures Cong(0xff, Sum([])) && Cong(0xff, WeightedSum([]))
  {
  }

  lemma {:induction false} AccGrows(s1: nat, s2: nat, chunk: Bytes)
    ensures Acc1(s1, chunk) >= s1 && Acc2(s1, s2, chunk) >= s2
  {
    if chunk != [] {
      AccGrows(s1, s2, chunk[..|chunk| - 1]);
    }
  }

  // ---------- comparison with the 8-bit Fletcher checksum ----------

  /** The 8-bit Fletcher algorithm of RFC 1146, Appendix I, in one's-complement arithmetic:
      both accumulators start at zero. */
  function Rfc1146(bytes: Bytes): (int, int) {
    if bytes == [] then (0, 0)
    else
      var (a, b) := Rfc1146(bytes[..|bytes| - 1]);
      var a' := (a + bytes[|bytes| - 1]) % 255;
      (a', (b + a') % 255)
  }

  lemma {:induction false} RfcSums(bytes: Bytes)
    ensures Rfc1146(bytes) == (Sum(bytes) % 255, WeightedSum(bytes) % 255)
  {
    hide Sum, WeightedSum;
    if bytes == [] {
      EmptySums();
    } else {
      var init, b := bytes[..|bytes| - 1], bytes[|bytes| - 1];
      RfcSums(init);
      SumSnoc(init, b);
      assert init + [b] == bytes;
      RfcStep(Sum(init), WeightedSum(init), b);
    }
  }

  lemma RfcStep(s: int, w: int, b: int)
    ensures (s % 255 + b) % 255 == (s + b) % 255
    ensures (w % 255 + (s % 255 + b) % 255) % 255 == (w + s + b) % 255
  {
  }

  /** fletcher16 computes the same two sums; only zero is written as its other representation 0xff. */
  lemma SameAsRfc1146(bytes: Bytes)
    ensures Checksum(bytes) == Rep(Rfc1146(bytes).1) * 256 + Rep(Rfc1146(bytes).0)
  {
    hide Sum, WeightedSum, Rfc1146;
    RfcSums(bytes);
  }

  lemma EmptySums()
    ensures Sum([]) == 0 && WeightedSum([]) == 0
  {
  }

  // ---------- which edits the checksum sees ----------

  lemma {:induction false} SumUpdate(bytes: Bytes, i: nat, x: byte)
    requires i < |bytes|
    ensures Sum(bytes[i := x]) == Sum(bytes) + x - bytes[i]
    ensures WeightedSum(bytes[i := x]) == WeightedSum(bytes) + (|bytes| - i) * (x - bytes[i])
  {
    var edited := bytes[i := x];
    if i == 0 {
      assert edited[1..] == bytes[1..];
      assert |bytes| * x == |bytes| * bytes[0] + |bytes| * (x - bytes[0]);
    } else {
      assert edited[1..] == bytes[1..][i - 1 := x];
      SumUpdate(bytes[1..], i - 1, x);
    }
  }

  lemma ChecksumEqual(a: Bytes, b: Bytes)
    ensures Checksum(a) == Checksum(b) <==> Cong(Sum(a), Sum(b)) && Cong(WeightedSum(a), WeightedSum(b))
  {
    hide Sum, WeightedSum;
  }

  lemma CongShift(a: int, d: int)
    ensures Cong(a + d, a) <==> d % 255 == 0
  {
    if d % 255 == 0 {
      assert a + d == a + 255 * (d / 255);
    }
    if Cong(a + d, a) {
      assert d == 255 * ((a + d) / 255 - a / 255);
    }
  }

  lemma MultipleOf255(w: nat, d: int)
    requires d % 255 == 0
    ensures (w * d) % 255 == 0
  {
    assert d == 255 * (d / 255);
    assert w * (255 * (d / 255)) == 255 * (w * (d / 255));
  }

  /** The checksum misses a single-byte edit exactly when it exchanges 0x00 and 0xff. */
  lemma SingleEdit(bytes: Bytes, i: nat, x: byte)
    requires i < |bytes|
    ensures Checksum(bytes[i := x]) == Checksum(bytes) <==> x == bytes[i] || {x, bytes[i]} == {0x00, 0xff}
  {
    hide Checksum, Sum, WeightedSum, Cong;
    SumUpdate(bytes, i, x);
    ChecksumEqual(bytes[i := x], bytes);
    var d, w := x - bytes[i], |bytes| - i;
    CongShift(Sum(bytes), d);
    if d % 255 == 0 {
      MultipleOf255(w, d);
      CongShift(WeightedSum(bytes), w * d);
    }
    assert d % 255 == 0 <==> d == 0 || d == 255 || d == -255;
    assert (d == 255 || d == -255) <==> {x, bytes[i]} == {0x00, 0xff};
  }
}
