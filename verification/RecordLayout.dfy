/** What the bytes of a module's record are: the serializers against the layout that the controller
    reads, position by position. */
module RecordLayout {
  import opened Common
  import opened Bits
  import opened Modules
  import opened ModuleLaws

  // ---------- packing piece by piece ----------

  lemma {:induction false} ValOfAppend(a: seq<bool>, b: seq<bool>)
    ensures ValOf(a + b) == ValOf(a) * Pow2(|b|) + ValOf(b)
  {
    if b == [] {
      assert a + b == a;
    } else {
      var n := |b| - 1;
      ValOfAppend(a, b[..n]);
      assert (a + b)[..|a + b| - 1] == a + b[..n];
      assert 2 * (ValOf(a) * Pow2(n)) == ValOf(a) * Pow2(|b|);
    }
  }

  lemma {:induction false} ZerosAre(n: nat)
    ensures ValOf(Zeros(n)) == 0
  {
    if n > 0 {
      ZerosAre(n - 1);
      assert Zeros(n)[..n - 1] == Zeros(n - 1);
    }
  }

  /** The number a value stands for in its field. */
  function Int(v: Value): nat {
    match v
    case Num(n) => if n >= 0 then n else 0
    case Flag(b) => if b then 1 else 0
    case _ => 0
  }

  /** The number that the bits of a format make, most significant field first. */
  function NumberOf(fmt: Format, vals: seq<Value>): nat {
    if fmt == [] then 0
    else if fmt[0].P? || vals == [] then NumberOf(fmt[1..], vals)
    else Int(vals[0]) * Pow2(Width(fmt[1..])) + NumberOf(fmt[1..], vals[1..])
  }

  lemma FieldNumber(f: Carrier, v: Value)
    requires !f.R? && Fits(f, v) && f.Width() > 0
    ensures Packable(f, v) && ValOf(FieldBits(f, v)) == Int(v)
  {
    if f.U? {
      ValOfBitsOf(v.n, f.width);
    } else {
      assert Pow2(f.width) == 2 * Pow2(f.width - 1);
      ValOfBitsOf(Int(v), f.width);
    }
  }

  predicate NoRaw(fmt: Format) {
    forall i :: 0 <= i < |fmt| ==> !fmt[i].R?
  }

  lemma {:induction false} PackedNumber(fmt: Format, vals: seq<Value>)
    requires WellFormed(fmt) && NoRaw(fmt) && AllFit(fmt, vals)
    ensures PackBits(fmt, vals).Ok? && ValOf(PackBits(fmt, vals).value) == NumberOf(fmt, vals)
  {
    hide AllFit, ValOf, FieldBits;
    FittingIsLossless(fmt, vals);
    PackSucceedsIff(fmt, vals);
    if fmt != [] {
      TailFits(fmt, vals);
      if fmt[0].P? {
        PackedNumber(fmt[1..], vals);
        ZerosAre(fmt[0].width);
        ValOfAppend(Zeros(fmt[0].width), PackBits(fmt[1..], vals).value);
      } else {
        PackedNumber(fmt[1..], vals[1..]);
        FieldNumber(fmt[0], vals[0]);
        ValOfAppend(FieldBits(fmt[0], vals[0]), PackBits(fmt[1..], vals[1..]).value);
      }
    } else {
      assert ValOf([]) == 0 by { NoBits(); }
    }
  }

  lemma NoBits()
    ensures ValOf([]) == 0
  {
  }

  lemma TailFits(fmt: Format, vals: seq<Value>)
    requires fmt != [] && AllFit(fmt, vals)
    ensures fmt[0].P? ==> AllFit(fmt[1..], vals)
    ensures !fmt[0].P? ==> vals != [] && Fits(fmt[0], vals[0]) && AllFit(fmt[1..], vals[1..])
  {
    var cs := Carriers(fmt);
    if !fmt[0].P? {
      assert cs == [fmt[0]] + Carriers(fmt[1..]);
      assert forall i :: 0 <= i < |vals[1..]| ==> Carriers(fmt[1..])[i] == cs[i + 1] && vals[1..][i] == vals[i + 1];
      assert Fits(cs[0], vals[0]);
    } else {
      assert cs == Carriers(fmt[1..]);
    }
  }

  /** Fields that fill one byte. */
  lemma OneByte(fmt: Format, vals: seq<Value>)
    requires WellFormed(fmt) && NoRaw(fmt) && AllFit(fmt, vals) && Width(fmt) == 8
    ensures NumberOf(fmt, vals) < 256 && Packs(fmt, vals, [NumberOf(fmt, vals)])
  {
    PackedNumber(fmt, vals);
    var bits := PackBits(fmt, vals).value;
    ValOfBound(bits);
    assert Pow2(8) == 256;
    assert bits[..8] == bits && bits[8..] == [];
    assert ToBytes(bits) == [ByteOf(bits)] + ToBytes([]);
    assert ToBytes(bits) == [NumberOf(fmt, vals)];
  }

  lemma {:induction false} PackBitsAppend(f: Format, g: Format, u: seq<Value>, v: seq<Value>)
    requires |u| == |Carriers(f)| && PackBits(f, u).Ok? && PackBits(g, v).Ok?
    ensures PackBits(f + g, u + v) == Ok(PackBits(f, u).value + PackBits(g, v).value)
  {
    hide PackBits, Carriers, Packable, FieldBits;
    if f == [] {
      NothingPacked(u);
      assert f + g == g && u + v == v;
      assert [] + PackBits(g, v).value == PackBits(g, v).value;
    } else {
      assert (f + g)[0] == f[0] && (f + g)[1..] == f[1..] + g;
      StepPacked(f, u);
      if !f[0].P? { assert (u + v)[0] == u[0] && (u + v)[1..] == u[1..] + v; }
      var rest := if f[0].P? then u else u[1..];
      PackBitsAppend(f[1..], g, rest, v);
      FrontPacked(f[0], f[1..] + g, u + v);
      assert f + g == [f[0]] + (f[1..] + g);
      var head := if f[0].P? then Zeros(f[0].width) else FieldBits(f[0], u[0]);
      var tail, back := PackBits(f[1..], rest).value, PackBits(g, v).value;
      assert head + (tail + back) == (head + tail) + back;
    }
  }

  lemma NothingPacked(u: seq<Value>)
    ensures Carriers([]) == [] && PackBits([], u) == Ok([])
  {
  }

  lemma StepPacked(f: Format, u: seq<Value>)
    requires f != [] && PackBits(f, u).Ok? && |u| == |Carriers(f)|
    ensures f[0].P? ==> |u| == |Carriers(f[1..])| && PackBits(f[1..], u).Ok?
    ensures f[0].P? ==> PackBits(f, u).value == Zeros(f[0].width) + PackBits(f[1..], u).value
    ensures !f[0].P? ==> u != [] && |u[1..]| == |Carriers(f[1..])|
    ensures !f[0].P? ==> Packable(f[0], u[0]) && PackBits(f[1..], u[1..]).Ok?
    ensures !f[0].P? ==> PackBits(f, u).value == FieldBits(f[0], u[0]) + PackBits(f[1..], u[1..]).value
  {
    hide Packable, FieldBits;
  }

  lemma FrontPacked(f: Field, rest: Format, u: seq<Value>)
    requires f.P? ==> PackBits(rest, u).Ok?
    requires !f.P? ==> u != [] && Packable(f, u[0]) && PackBits(rest, u[1..]).Ok?
    ensures f.P? ==> PackBits([f] + rest, u) == Ok(Zeros(f.width) + PackBits(rest, u).value)
    ensures !f.P? ==> PackBits([f] + rest, u) == Ok(FieldBits(f, u[0]) + PackBits(rest, u[1..]).value)
  {
    hide Packable, FieldBits;
    assert ([f] + rest)[1..] == rest && ([f] + rest)[0] == f;
  }

  lemma {:induction false} ToBytesAppend(a: seq<bool>, b: seq<bool>)
    requires |a| % 8 == 0
    ensures ToBytes(a + b) == ToBytes(a) + ToBytes(b)
  {
    if a == [] {
      assert a + b == b;
    } else {
      assert (a + b)[..8] == a[..8] && (a + b)[8..] == a[8..] + b;
      ToBytesAppend(a[8..], b);
    }
  }

  /** The values u of format f come out as the bytes a. */
  predicate Packs(f: Format, u: seq<Value>, a: Bytes) {
    |u| == |Carriers(f)| && Width(f) == 8 * |a| && Pack(f, u) == Ok(a)
  }

  lemma Both(f: Format, g: Format, u: seq<Value>, v: seq<Value>, a: Bytes, b: Bytes)
    requires Packs(f, u, a) && Packs(g, v, b)
    ensures Packs(f + g, u + v, a + b)
  {
    hide PackBits, ToBytes;
    FormatAppend(f, g);
    PackBitsAppend(f, g, u, v);
    ToBytesAppend(PackBits(f, u).value, PackBits(g, v).value);
  }

  lemma {:induction false} Rows(fmt: Format, rows: seq<seq<Value>>, images: seq<Bytes>)
    requires |rows| == |images| && forall i :: 0 <= i < |rows| ==> Packs(fmt, rows[i], images[i])
    ensures Packs(Repeat(fmt, |rows|), Concat(rows), Concat(images))
  {
    if rows == [] {
      assert Packs([], [], []);
    } else {
      hide Packs;
      var n := |rows| - 1;
      Rows(fmt, rows[..n], images[..n]);
      Both(Repeat(fmt, n), fmt, Concat(rows[..n]), rows[n], Concat(images[..n]), images[n]);
    }
  }

  lemma PackPadding(n: nat)
    ensures Packs([P(8 * n)], [], seq(n, _ => 0))
  {
    assert PackBits([P(8 * n)], []) == Ok(Zeros(8 * n) + []);
    assert Zeros(8 * n) + [] == Zeros(8 * n);
    ZeroBytesOf(n);
  }

  lemma {:induction false} ZeroBytesOf(n: nat)
    ensures ToBytes(Zeros(8 * n)) == seq(n, _ => 0)
  {
    if n > 0 {
      ZeroBytesOf(n - 1);
      assert Zeros(8 * n)[..8] == Zeros(8) && Zeros(8 * n)[8..] == Zeros(8 * (n - 1));
      ZerosAre(8);
    }
  }

  lemma PackRaw(k: nat, bytes: Bytes)
    requires |bytes| == k
    ensures Packs([R(k)], [Raw(bytes)], bytes)
  {
    assert Sized(bytes, k) == bytes;
    assert [R(k)][1..] == [] && PackBits([], [Raw(bytes)][1..]) == Ok([]);
    assert PackBits([R(k)], [Raw(bytes)]) == Ok(ToBits(bytes) + []);
    assert ToBits(bytes) + [] == ToBits(bytes);
    ToBytesToBits(bytes);
  }

  // ---------- single bytes ----------

  lemma Front(f: Carrier, rest: Format, v: Value, vals: seq<Value>)
    ensures [f] + rest != [] && [v] + vals != []
    ensures NumberOf([f] + rest, [v] + vals) == Int(v) * Pow2(Width(rest)) + NumberOf(rest, vals)
    ensures Width([f] + rest) == f.Width() + Width(rest)
  {
    assert ([f] + rest)[1..] == rest && ([v] + vals)[1..] == vals;
  }

  lemma Pad(f: Field, rest: Format, vals: seq<Value>)
    requires f.P?
    ensures NumberOf([f] + rest, vals) == NumberOf(rest, vals) && Width([f] + rest) == f.width + Width(rest)
  {
    assert ([f] + rest)[1..] == rest;
  }

  lemma Last(f: Carrier, v: Value)
    ensures NumberOf([f], [v]) == Int(v) && Width([f]) == f.Width()
  {
    Front(f, [], v, []);
    assert [f] + [] == [f] && [v] + [] == [v] && Pow2(0) == 1;
  }

  lemma ByteField(v: Value)
    requires Uint(v, 8)
    ensures Int(v) < 256 && Packs([U(8)], [v], [Int(v)])
  {
    assert Pow2(8) == 256;
    OneByte([U(8)], [v]);
  }

  lemma Nibbles(v: Value, w: Value)
    requires Uint(v, 4) && Uint(w, 4)
    ensures 16 * Int(v) + Int(w) < 256 && Packs(INTEG_SMOOTH, [v, w], [16 * Int(v) + Int(w)])
  {
    assert Pow2(4) == 16 && Pow2(0) == 1;
    OneByte(INTEG_SMOOTH, [v, w]);
    Last(U(4), w);
    Front(U(4), [U(4)], v, [w]);
    assert [U(4)] + [U(4)] == INTEG_SMOOTH && [v] + [w] == [v, w];
  }

  lemma AlarmByte(over: Value, under: Value, wire: Value, power: Value)
    requires over.Flag? && under.Flag? && wire.Flag? && power.Flag?
    ensures var x := 128 * Int(over) + 64 * Int(under) + 16 * Int(wire) + Int(power);
      x < 256 && Packs(ALARMS, [over, under, wire, power], [x])
  {
    hide NumberOf, Width, Packs, Carriers, Int;
    AlarmPiece();
    var a, u := [B(1)], [power];
    var b := [P(3)] + a;
    var c, v := [B(1)] + b, [wire] + u;
    var d := [P(1)] + c;
    var e, w := [B(1)] + d, [under] + v;
    assert [B(1)] + e == ALARMS && [over] + w == [over, under, wire, power];
    OneByte(ALARMS, [over] + w);
    assert Pow2(7) == 128 && Pow2(6) == 64 && Pow2(4) == 16;
    Last(B(1), power);
    Pad(P(3), a, u);
    Front(B(1), b, wire, u);
    Pad(P(1), c, v);
    Front(B(1), d, under, v);
    Front(B(1), e, over, w);
  }

  lemma OutputByte(substitute: Value, behavior: Value)
    requires Uint(substitute, 1) && Uint(behavior, 2)
    ensures var x := 128 * Int(substitute) + 16 * Int(behavior);
      x < 256 && Packs([U(1), P(1), U(2), P(1), P(3)], [substitute, behavior], [x])
  {
    OutputCarriers();
    hide NumberOf, Width, Packs, Carriers, Int;
    assert Pow2(1) == 2 && Pow2(2) == 4 && Pow2(4) == 16 && Pow2(7) == 128 && Pow2(0) == 1;
    var a := [P(3)];
    var b := [P(1)] + a;
    var c, v := [U(2)] + b, [behavior] + [];
    var d := [P(1)] + c;
    assert [U(1)] + d == [U(1), P(1), U(2), P(1), P(3)] && [substitute] + v == [substitute, behavior];
    OneByte([U(1)] + d, [substitute] + v);
    Nothing();
    Pad(P(3), [], []);
    assert [P(3)] + [] == a;
    Pad(P(1), a, []);
    Front(U(2), b, behavior, []);
    Pad(P(1), c, v);
    Front(U(1), d, substitute, v);
  }

  lemma Nothing()
    ensures NumberOf([], []) == 0 && Width([]) == 0
  {
  }

  lemma OutputCarriers()
    ensures var f := [U(1), P(1), U(2), P(1), P(3)];
      WellFormed(f) && NoRaw(f) && Width(f) == 8 && Carriers(f) == [U(1), U(2)]
  {
  }

  lemma EnergyByte(gate: Value, period: Value, freq: Value)
    requires gate.Flag? && Uint(period, 3) && Uint(freq, 4)
    ensures var x := 128 * Int(gate) + 16 * Int(period) + Int(freq);
      x < 256 && Packs([B(1), U(3), U(4)], [gate, period, freq], [x])
  {
    EnergyCarriers();
    hide NumberOf, Width, Packs, Carriers, Int;
    assert Pow2(3) == 8 && Pow2(4) == 16 && Pow2(7) == 128;
    var a, u := [U(4)], [freq];
    var b, v := [U(3)] + a, [period] + u;
    assert [B(1)] + b == [B(1), U(3), U(4)] && [gate] + v == [gate, period, freq];
    OneByte([B(1)] + b, [gate] + v);
    Last(U(4), freq);
    Front(U(3), a, period, u);
    Front(B(1), b, gate, v);
  }

  lemma EnergyCarriers()
    ensures var f := [B(1), U(3), U(4)]; WellFormed(f) && NoRaw(f) && Width(f) == 8 && Carriers(f) == f
  {
  }

  lemma DiagnosisByte(minMax: Value, line: Value)
    requires minMax.Flag? && line.Flag?
    ensures var x := 128 * Int(minMax) + Int(line); x < 256 && Packs([B(1), P(6), B(1)], [minMax, line], [x])
  {
    DiagnosisCarriers();
    hide NumberOf, Width, Packs, Carriers, Int;
    assert Pow2(7) == 128;
    var a, u := [B(1)], [line];
    var b := [P(6)] + a;
    assert [B(1)] + b == [B(1), P(6), B(1)] && [minMax] + u == [minMax, line];
    OneByte([B(1)] + b, [minMax] + u);
    Last(B(1), line);
    Pad(P(6), a, u);
    Front(B(1), b, minMax, u);
  }

  lemma DiagnosisCarriers()
    ensures var f := [B(1), P(6), B(1)]; WellFormed(f) && NoRaw(f) && Width(f) == 8 && Carriers(f) == [B(1), B(1)]
  {
  }

  const METER_DIAG_BYTE: Format := [B(1), B(1), B(1), P(2), B(1), B(1), P(1)]

  lemma DiagByte(over: Value, under: Value, ll: Value, cal: Value, cur: Value)
    requires over.Flag? && under.Flag? && ll.Flag? && cal.Flag? && cur.Flag?
    ensures var x := 128 * Int(over) + 64 * Int(under) + 32 * Int(ll) + 4 * Int(cal) + 2 * Int(cur);
      x < 256 && Packs(METER_DIAG_BYTE, [over, under, ll, cal, cur], [x])
  {
    hide NumberOf, Packs, AllFit, Int;
    DiagFits(over, under, ll, cal, cur);
    DiagNumber(over, under, ll, cal, cur);
    OneByte(METER_DIAG_BYTE, [over, under, ll, cal, cur]);
  }

  lemma DiagNumber(over: Value, under: Value, ll: Value, cal: Value, cur: Value)
    ensures NumberOf(METER_DIAG_BYTE, [over, under, ll, cal, cur])
         == 128 * Int(over) + 64 * Int(under) + 32 * Int(ll) + 4 * Int(cal) + 2 * Int(cur)
  {
    hide NumberOf, Width, Carriers, Int;
    CurrentDiag(cal, cur);
    var e, v := [P(2), B(1), B(1), P(1)], [cal, cur];
    var f, w := [B(1)] + e, [ll] + v;
    var g, x := [B(1)] + f, [under] + w;
    assert [B(1)] + g == METER_DIAG_BYTE && [over] + x == [over, under, ll, cal, cur];
    assert Pow2(5) == 32 && Pow2(6) == 64 && Pow2(7) == 128;
    Front(B(1), e, ll, v);
    Front(B(1), f, under, w);
    Front(B(1), g, over, x);
  }

  lemma CurrentDiag(cal: Value, cur: Value)
    ensures var f := [P(2), B(1), B(1), P(1)]; Width(f) == 5 && NumberOf(f, [cal, cur]) == 4 * Int(cal) + 2 * Int(cur)
  {
    hide NumberOf, Width, Carriers, Int;
    assert Pow2(1) == 2 && Pow2(2) == 4;
    Nothing();
    Pad(P(1), [], []);
    var a := [P(1)];
    assert [P(1)] + [] == a;
    var b, u := [B(1)] + a, [cur] + [];
    var d, v := [B(1)] + b, [cal] + u;
    assert [P(2)] + d == [P(2), B(1), B(1), P(1)] && v == [cal, cur];
    Front(B(1), a, cur, []);
    Front(B(1), b, cal, u);
    Pad(P(2), d, v);
  }

  lemma DiagFits(over: Value, under: Value, ll: Value, cal: Value, cur: Value)
    requires over.Flag? && under.Flag? && ll.Flag? && cal.Flag? && cur.Flag?
    ensures WellFormed(METER_DIAG_BYTE) && NoRaw(METER_DIAG_BYTE) && Width(METER_DIAG_BYTE) == 8
    ensures AllFit(METER_DIAG_BYTE, [over, under, ll, cal, cur])
  {
    assert Carriers(METER_DIAG_BYTE) == [B(1), B(1), B(1), B(1), B(1)];
  }

  lemma HoursByte(dir: Value, hours: Value, ct: Value, gate: Value)
    requires dir.Flag? && hours.Flag? && Uint(ct, 2) && gate.Flag?
    ensures var x := 128 * Int(dir) + 64 * Int(hours) + 16 * Int(ct) + 8 * Int(gate);
      x < 256 && Packs(METER_HOURS, [dir, hours, ct, gate], [x])
  {
    hide NumberOf, Packs, AllFit, Int;
    HoursFit(dir, hours, ct, gate);
    HoursNumber(dir, hours, ct, gate);
    OneByte(METER_HOURS, [dir, hours, ct, gate]);
  }

  lemma HoursNumber(dir: Value, hours: Value, ct: Value, gate: Value)
    ensures NumberOf(METER_HOURS, [dir, hours, ct, gate])
         == 128 * Int(dir) + 64 * Int(hours) + 16 * Int(ct) + 8 * Int(gate)
  {
    hide NumberOf, Width, Carriers, Int;
    GateAndCurrent(ct, gate);
    var d, v := [U(2), B(1), P(3)], [ct, gate];
    var e, w := [B(1)] + d, [hours] + v;
    assert [B(1)] + e == METER_HOURS && [dir] + w == [dir, hours, ct, gate];
    assert Pow2(6) == 64 && Pow2(7) == 128;
    Front(B(1), d, hours, v);
    Front(B(1), e, dir, w);
  }

  lemma GateAndCurrent(ct: Value, gate: Value)
    ensures var f := [U(2), B(1), P(3)]; Width(f) == 6 && NumberOf(f, [ct, gate]) == 16 * Int(ct) + 8 * Int(gate)
  {
    hide NumberOf, Width, Carriers, Int;
    assert Pow2(3) == 8 && Pow2(4) == 16;
    Nothing();
    Pad(P(3), [], []);
    var a := [P(3)];
    assert [P(3)] + [] == a;
    var b, u := [B(1)] + a, [gate] + [];
    assert [U(2)] + b == [U(2), B(1), P(3)] && [ct] + u == [ct, gate];
    Front(B(1), a, gate, []);
    Front(U(2), b, ct, u);
  }

  lemma HoursFit(dir: Value, hours: Value, ct: Value, gate: Value)
    requires dir.Flag? && hours.Flag? && Uint(ct, 2) && gate.Flag?
    ensures WellFormed(METER_HOURS) && NoRaw(METER_HOURS) && Width(METER_HOURS) == 8
    ensures AllFit(METER_HOURS, [dir, hours, ct, gate])
  {
    MeterHourPiece();
  }

  // ---------- big-endian numbers ----------

  /** A number in big-endian bytes ends with its last 256-ary digit. */
  lemma LastByte(v: nat, k: nat)
    requires v < Pow2(8 * (k + 1))
    ensures ToBE(v, k + 1) == ToBE(v / 256, k) + [v % 256]
  {
    hide BitsOf, ToBytes, ValOf;
    assert Pow2(8) == 256;
    var bits := BitsOf(v, 8 * (k + 1));
    var front, back := bits[..8 * k], bits[8 * k..];
    assert front + back == bits;
    ValOfBitsOf(v, 8 * (k + 1));
    ValOfAppend(front, back);
    ValOfBound(back);
    assert ValOf(front) == v / 256 && ValOf(back) == v % 256;
    BitsOfValOf(front);
    ToBytesAppend(front, back);
    OneWholeByte(back);
  }

  lemma OneWholeByte(bits: seq<bool>)
    requires |bits| == 8
    ensures ToBytes(bits) == [ByteOf(bits)]
  {
    assert bits[..8] == bits && ToBytes(bits[8..]) == [];
  }

  lemma NoBytes(v: nat)
    ensures ToBE(v, 0) == []
  {
  }

  function Two(n: nat): (b: Bytes)
    requires n < 0x1_0000
    ensures |b| == 2
  {
    [n / 0x100, n % 0x100]
  }

  function Four(n: nat): (b: Bytes)
    requires n < 0x1_0000_0000
    ensures |b| == 4
  {
    [n / 0x100_0000, n / 0x1_0000 % 0x100, n / 0x100 % 0x100, n % 0x100]
  }

  lemma BigEndian(n: nat)
    ensures n < 0x1_0000 ==> ToBE(n, 2) == Two(n)
    ensures n < 0x1_0000_0000 ==> ToBE(n, 4) == Four(n)
  {
    if n < 0x1_0000 { TwoBytes(n); }
    if n < 0x1_0000_0000 { FourBytes(n); }
  }

  lemma TwoBytes(n: nat)
    requires n < 0x1_0000
    ensures ToBE(n, 2) == Two(n)
  {
    hide ToBE, Pow2;
    Pow2Values();
    NoBytes(n / 256 / 256);
    LastByte(n / 256, 0);
    LastByte(n, 1);
  }

  lemma FourBytes(n: nat)
    requires n < 0x1_0000_0000
    ensures ToBE(n, 4) == Four(n)
  {
    hide ToBE, Pow2;
    Pow2Values();
    Pow2Add(16, 8);
    TwoBytes(n / 256 / 256);
    LastByte(n / 256, 2);
    LastByte(n, 3);
  }

  // ---------- the layout ----------

  /** An input channel: its delay time in the second byte. */
  function DiImage(delay: Value): (r: Bytes)
    requires Uint(delay, 4)
    ensures |r| == 2
  {
    assert Pow2(4) == 16;
    [0, Int(delay)]
  }

  function DqImage(substitute: Value, behavior: Value): (r: Bytes)
    requires Uint(substitute, 1) && Uint(behavior, 2)
    ensures |r| == 2
  {
    assert Pow2(1) == 2 && Pow2(2) == 4;
    [0, 128 * Int(substitute) + 16 * Int(behavior)]
  }

  function Zeroes(n: nat): (r: Bytes)
    ensures |r| == n
  {
    seq(n, _ => 0)
  }

  function RtdImage(c: RtdChannel, integTime: Value, powerAlarm: Value): (r: Bytes)
    requires RtdInWidth(c) && Uint(integTime, 4) && powerAlarm.Flag?
    ensures |r| == 26
  {
    assert Pow2(8) == 256 && Pow2(4) == 16;
    [Int(c.kind), Int(c.range), Int(c.temperCoeff), 16 * Int(integTime) + Int(c.smooth), Int(c.temperUnit), 0,
     128 * Int(c.overflowAlarm) + 64 * Int(c.underflowAlarm) + 16 * Int(c.openWireAlarm) + Int(powerAlarm)]
    + Zeroes(19)
  }

  function AiImage(c: AiChannel, integTime: Value, powerAlarm: Value): (r: Bytes)
    requires AiInWidth(c) && Uint(integTime, 4) && powerAlarm.Flag?
    ensures |r| == 26
  {
    assert Pow2(8) == 256 && Pow2(4) == 16;
    [Int(c.kind), Int(c.range), 0, 16 * Int(integTime) + Int(c.smooth), 0, 0,
     128 * Int(c.overflowAlarm) + 64 * Int(c.underflowAlarm) + 16 * Int(c.openWireAlarm) + Int(powerAlarm)]
    + Zeroes(19)
  }

  function ModuleImage(m: MeterModule): (r: Bytes)
    requires MeterModuleInWidth(m)
    ensures |r| == 15
  {
    assert Pow2(8) == 256 && Pow2(4) == 16 && Pow2(3) == 8;
    [Int(m.moduleVersion), 0x51, 0x02, 0x01, 0x08, Int(m.conType), Int(m.range),
     128 * Int(m.meterGate) + 16 * Int(m.periodMeters) + Int(m.lineFreq), Int(m.lineVolTol),
     128 * Int(m.minMaxCal) + Int(m.diagLineVol), Int(m.dataVariant), 0, 0, 0x03, 0x14]
  }

  function MeterImage(c: MeterChannel): (r: Bytes)
    requires MeterInWidth(c)
    ensures |r| == 20
  {
    Pow2Values();
    [128 * Int(c.diagOverVol) + 64 * Int(c.diagUnderVol) + 32 * Int(c.diagLlVol)
     + 4 * Int(c.diagOverCal) + 2 * Int(c.diagOverCur), Int(c.overCurTolVal)]
    + Two(Int(c.overCurTolTime)) + Four(Int(c.ctPrimaryCur))
    + [128 * Int(c.reCurDir) + 64 * Int(c.actHourMeter) + 16 * Int(c.ctSecondCur) + 8 * Int(c.enGateCirHourMeter),
       Int(c.llCurMeasure)]
    + Two(Int(c.vtSecondVol)) + Four(Int(c.vtPrimVol)) + Zeroes(4)
  }

  /** The image of each input channel; four share a delay time. */
  function DiImages(delays: seq<Value>, n: nat): (r: seq<Bytes>)
    requires n == 4 * |delays| && forall d :: d in delays ==> Uint(d, 4)
    ensures |r| == n
  {
    seq(n, i requires 0 <= i < n => DiImage(delays[i / 4]))
  }

  /** The bytes of a record: head tags, then channel after channel. */
  ghost function Record(k: Kind, b: Body): Bytes
    requires WellShaped(k, b) && InWidth(k, b)
  {
    match k
    case Sm1223(n) =>
      [0, 0x02] + Concat(DiImages(b.delays, n))
      + ([0, 0x02] + Concat(seq(n, i requires 0 <= i < n => DqImage(b.substitute[i], b.behaviorWithOD))))
    case Rtd(n) =>
      [0, 0x1A] + Concat(seq(n, i requires 0 <= i < n => RtdImage(b.rtd[i], b.integTime, b.powerAlarm)))
    case Ai(n) =>
      [0, 0x1A] + Concat(seq(n, i requires 0 <= i < n => AiImage(b.ai[i], b.integTime, b.powerAlarm)))
    case Meter => ModuleImage(b.meter) + Concat(seq(3, i requires 0 <= i < 3 => MeterImage(b.phases[i])))
    case Sm1221 => [0, 0x02] + Concat(DiImages(b.delays, 8))
    case SensDi => [0, 0x02] + Zeroes(12)
    case NoModule => []
  }

  // ---------- channels ----------

  lemma HeadPacked(tag: byte)
    ensures Packs(HEADER, [Num(tag)], [0, tag])
  {
    hide Packs;
    assert Pow2(8) == 256;
    PackPadding(1);
    ByteField(Num(tag));
    Both([P(8)], [U(8)], [], [Num(tag)], Zeroes(1), [tag]);
    assert [P(8)] + [U(8)] == HEADER && [] + [Num(tag)] == [Num(tag)] && Zeroes(1) + [tag] == [0, tag];
  }

  lemma DiPacked(delay: Value)
    requires Uint(delay, 4)
    ensures Packs(DI_CHANNEL, [delay], DiImage(delay))
  {
    hide Packs, Int;
    PackPadding(1);
    DelayByte(delay);
    Both([P(8)], [P(4), U(4)], [], [delay], Zeroes(1), [Int(delay)]);
    assert [P(8)] + [P(4), U(4)] == DI_CHANNEL && [] + [delay] == [delay];
    assert Zeroes(1) + [Int(delay)] == DiImage(delay);
  }

  lemma DelayByte(delay: Value)
    requires Uint(delay, 4)
    ensures Int(delay) < 256 && Packs([P(4), U(4)], [delay], [Int(delay)])
  {
    assert Pow2(4) == 16;
    OneByte([P(4), U(4)], [delay]);
    Last(U(4), delay);
    Pad(P(4), [U(4)], [delay]);
    assert [P(4)] + [U(4)] == [P(4), U(4)];
  }

  lemma DqPacked(substitute: Value, behavior: Value)
    requires Uint(substitute, 1) && Uint(behavior, 2)
    ensures Packs(DQ_CHANNEL, DqRow(substitute, behavior), DqImage(substitute, behavior))
  {
    hide Packs, Int;
    PackPadding(1);
    OutputByte(substitute, behavior);
    var f: Format := [U(1), P(1), U(2), P(1), P(3)];
    var x: byte := 128 * Int(substitute) + 16 * Int(behavior);
    Both([P(8)], f, [], [substitute, behavior], Zeroes(1), [x]);
    assert [P(8)] + f == DQ_CHANNEL && [] + [substitute, behavior] == DqRow(substitute, behavior);
    assert Zeroes(1) + [x] == DqImage(substitute, behavior);
  }

  lemma ThreeFields(a: Value, b: Value, c: Value)
    requires Uint(a, 8) && Uint(b, 8) && Uint(c, 8)
    ensures Int(a) < 256 && Int(b) < 256 && Int(c) < 256
    ensures Packs([U(8), U(8), U(8)], [a, b, c], [Int(a), Int(b), Int(c)])
  {
    hide Packs, Int;
    TwoFields(a, b);
    ByteField(c);
    Both([U(8), U(8)], [U(8)], [a, b], [c], [Int(a), Int(b)], [Int(c)]);
    assert [U(8), U(8)] + [U(8)] == [U(8), U(8), U(8)] && [a, b] + [c] == [a, b, c];
    assert [Int(a), Int(b)] + [Int(c)] == [Int(a), Int(b), Int(c)];
  }

  lemma TwoFields(a: Value, b: Value)
    requires Uint(a, 8) && Uint(b, 8)
    ensures Int(a) < 256 && Int(b) < 256 && Packs([U(8), U(8)], [a, b], [Int(a), Int(b)])
  {
    hide Packs, Int;
    ByteField(a);
    ByteField(b);
    Both([U(8)], [U(8)], [a], [b], [Int(a)], [Int(b)]);
    assert [U(8)] + [U(8)] == [U(8), U(8)] && [a] + [b] == [a, b] && [Int(a)] + [Int(b)] == [Int(a), Int(b)];
  }

  lemma FieldAndPadding(a: Value, n: nat)
    requires Uint(a, 8)
    ensures Int(a) < 256 && Packs([U(8), P(8 * n)], [a], [Int(a)] + Zeroes(n))
  {
    hide Packs, Int;
    ByteField(a);
    PackPadding(n);
    Both([U(8)], [P(8 * n)], [a], [], [Int(a)], Zeroes(n));
    assert [U(8)] + [P(8 * n)] == [U(8), P(8 * n)] && [a] + [] == [a];
  }

  lemma ReservedPacked()
    ensures Packs(RESERVED, [], Zeroes(19))
  {
    hide Packs;
    PackPadding(1);
    PackPadding(18);
    var none: seq<Value> := [];
    Both([P(8)], [P(144)], none, none, Zeroes(1), Zeroes(18));
    assert none + none == none;
    assert [P(8)] + [P(144)] == RESERVED && Zeroes(1) + Zeroes(18) == Zeroes(19);
  }

  lemma RtdPacked(b: Body, c: RtdChannel)
    requires b.RtdBody? && RtdInWidth(c) && Uint(b.integTime, 4) && b.powerAlarm.Flag?
    ensures Packs(RTD_CHANNEL, RtdRow(b, c), RtdImage(c, b.integTime, b.powerAlarm))
  {
    hide Packs, Int, Uint;
    ThreeFields(c.kind, c.range, c.temperCoeff);
    Nibbles(b.integTime, c.smooth);
    FieldAndPadding(c.temperUnit, 1);
    AlarmByte(c.overflowAlarm, c.underflowAlarm, c.openWireAlarm, b.powerAlarm);
    ReservedPacked();
    var u0, a0 := [c.kind, c.range, c.temperCoeff], [Int(c.kind), Int(c.range), Int(c.temperCoeff)];
    var u1, a1 := [b.integTime, c.smooth], [16 * Int(b.integTime) + Int(c.smooth)];
    var u2, a2 := [c.temperUnit], [Int(c.temperUnit)] + Zeroes(1);
    var u3 := [c.overflowAlarm, c.underflowAlarm, c.openWireAlarm, b.powerAlarm];
    var a3 := [128 * Int(c.overflowAlarm) + 64 * Int(c.underflowAlarm) + 16 * Int(c.openWireAlarm) + Int(b.powerAlarm)];
    Five(RTD_TYPE, INTEG_SMOOTH, RTD_UNIT, ALARMS, RESERVED, u0, u1, u2, u3, [], a0, a1, a2, a3, Zeroes(19));
    assert u0 + u1 + u2 + u3 + [] == RtdRow(b, c);
    assert a0 + a1 + a2 + a3 + Zeroes(19) == RtdImage(c, b.integTime, b.powerAlarm);
  }

  lemma Five(f0: Format, f1: Format, f2: Format, f3: Format, f4: Format,
             u0: seq<Value>, u1: seq<Value>, u2: seq<Value>, u3: seq<Value>, u4: seq<Value>,
             a0: Bytes, a1: Bytes, a2: Bytes, a3: Bytes, a4: Bytes)
    requires Packs(f0, u0, a0) && Packs(f1, u1, a1) && Packs(f2, u2, a2) && Packs(f3, u3, a3) && Packs(f4, u4, a4)
    ensures Packs(f0 + f1 + f2 + f3 + f4, u0 + u1 + u2 + u3 + u4, a0 + a1 + a2 + a3 + a4)
  {
    hide Packs;
    Both(f0, f1, u0, u1, a0, a1);
    Both(f0 + f1, f2, u0 + u1, u2, a0 + a1, a2);
    Both(f0 + f1 + f2, f3, u0 + u1 + u2, u3, a0 + a1 + a2, a3);
    Both(f0 + f1 + f2 + f3, f4, u0 + u1 + u2 + u3, u4, a0 + a1 + a2 + a3, a4);
  }

  lemma AiPacked(b: Body, c: AiChannel)
    requires b.AiBody? && AiInWidth(c) && Uint(b.integTime, 4) && b.powerAlarm.Flag?
    ensures Packs(AI_CHANNEL, AiRow(b, c), AiImage(c, b.integTime, b.powerAlarm))
  {
    hide Packs, Int, Uint;
    TwoFields(c.kind, c.range);
    PackPadding(1);
    var none: seq<Value> := [];
    var u0, a0 := [c.kind, c.range], [Int(c.kind), Int(c.range)];
    Both([U(8), U(8)], [P(8)], u0, none, a0, Zeroes(1));
    assert [U(8), U(8)] + [P(8)] == AI_TYPE;
    Nibbles(b.integTime, c.smooth);
    Both([P(8)], [P(8)], none, none, Zeroes(1), Zeroes(1));
    assert [P(8)] + [P(8)] == AI_GAP && none + none == none;
    AlarmByte(c.overflowAlarm, c.underflowAlarm, c.openWireAlarm, b.powerAlarm);
    ReservedPacked();
    var u1, a1 := [b.integTime, c.smooth], [16 * Int(b.integTime) + Int(c.smooth)];
    var u3 := [c.overflowAlarm, c.underflowAlarm, c.openWireAlarm, b.powerAlarm];
    var a3 := [128 * Int(c.overflowAlarm) + 64 * Int(c.underflowAlarm) + 16 * Int(c.openWireAlarm) + Int(b.powerAlarm)];
    var gap := Zeroes(1) + Zeroes(1);
    Five(AI_TYPE, INTEG_SMOOTH, AI_GAP, ALARMS, RESERVED, u0 + none, u1, none, u3, none,
         a0 + Zeroes(1), a1, gap, a3, Zeroes(19));
    assert u0 + none + u1 + none + u3 + none == AiRow(b, c);
    assert a0 + Zeroes(1) + a1 + gap + a3 + Zeroes(19) == AiImage(c, b.integTime, b.powerAlarm);
  }

  lemma HeadersPacked(version: Value)
    requires Uint(version, 8)
    ensures Int(version) < 256
    ensures Packs(METER_HEADERS, [version] + [Num(0x51), Num(0x02), Num(0x01), Num(0x08)],
                  [Int(version), 0x51, 0x02, 0x01, 0x08])
  {
    hide Packs, Int;
    assert Pow2(8) == 256;
    ThreeFields(version, Num(0x51), Num(0x02));
    TwoFields(Num(0x01), Num(0x08));
    Tags();
    Both([U(8), U(8), U(8)], [U(8), U(8)], [version, Num(0x51), Num(0x02)], [Num(0x01), Num(0x08)],
         [Int(version), 0x51, 0x02], [0x01, 0x08]);
    assert [U(8), U(8), U(8)] + [U(8), U(8)] == METER_HEADERS;
    assert [version, Num(0x51), Num(0x02)] + [Num(0x01), Num(0x08)]
        == [version] + [Num(0x51), Num(0x02), Num(0x01), Num(0x08)];
    assert [Int(version), 0x51, 0x02] + [0x01, 0x08] == [Int(version), 0x51, 0x02, 0x01, 0x08];
  }

  lemma Tags()
    ensures Int(Num(0x51)) == 0x51 && Int(Num(0x02)) == 0x02 && Int(Num(0x01)) == 0x01 && Int(Num(0x08)) == 0x08
    ensures Int(Num(0x03)) == 0x03 && Int(Num(0x14)) == 0x14
  {
  }

  lemma ChannelHeadPacked()
    ensures Packs(METER_CHANNEL_HEADER, [Num(0x03), Num(0x14)], [0x03, 0x14])
  {
    hide Packs, Int;
    assert Pow2(8) == 256;
    TwoFields(Num(0x03), Num(0x14));
    Tags();
  }

  lemma ModulePacked(m: MeterModule)
    requires MeterModuleInWidth(m)
    ensures Packs(METER_MODULE, MeterModuleRow(m), ModuleImage(m)[5..13])
  {
    hide Packs, Int;
    TwoFields(m.conType, m.range);
    EnergyByte(m.meterGate, m.periodMeters, m.lineFreq);
    ByteField(m.lineVolTol);
    DiagnosisByte(m.minMaxCal, m.diagLineVol);
    FieldAndPadding(m.dataVariant, 1);
    PackPadding(1);
    var u2, a2 := [m.meterGate, m.periodMeters, m.lineFreq],
                  [128 * Int(m.meterGate) + 16 * Int(m.periodMeters) + Int(m.lineFreq)];
    Both([B(1), U(3), U(4)], [U(8)], u2, [m.lineVolTol], a2, [Int(m.lineVolTol)]);
    assert [B(1), U(3), U(4)] + [U(8)] == METER_ENERGY;
    var u3, a3 := [m.minMaxCal, m.diagLineVol], [128 * Int(m.minMaxCal) + Int(m.diagLineVol)];
    DataPacked(u3, a3, m.dataVariant);
    var u1, a1 := [m.conType, m.range], [Int(m.conType), Int(m.range)];
    var u, a := u2 + [m.lineVolTol], a2 + [Int(m.lineVolTol)];
    Both(METER_CONNECTION, METER_ENERGY, u1, u, a1, a);
    var v, b := u3 + [m.dataVariant], a3 + [Int(m.dataVariant), 0, 0];
    Both(METER_CONNECTION + METER_ENERGY, METER_DATA, u1 + u, v, a1 + a, b);
    assert u1 + u + v == MeterModuleRow(m) && a1 + a + b == ModuleImage(m)[5..13];
  }

  lemma DataPacked(u: seq<Value>, a: Bytes, variant: Value)
    requires Packs([B(1), P(6), B(1)], u, a) && Uint(variant, 8)
    ensures Int(variant) < 256 && Packs(METER_DATA, u + [variant], a + [Int(variant), 0, 0])
  {
    hide Packs, Int;
    FieldAndPadding(variant, 1);
    PackPadding(1);
    var none: seq<Value> := [];
    Both([U(8), P(8)], [P(8)], [variant], none, [Int(variant)] + Zeroes(1), Zeroes(1));
    Both([B(1), P(6), B(1)], [U(8), P(8)] + [P(8)], u, [variant] + none, a, [Int(variant)] + Zeroes(1) + Zeroes(1));
    assert [B(1), P(6), B(1)] + ([U(8), P(8)] + [P(8)]) == METER_DATA && [variant] + none == [variant];
    assert [Int(variant)] + Zeroes(1) + Zeroes(1) == [Int(variant), 0, 0];
  }

  lemma RawNumber(v: Value, k: nat)
    requires Uint(v, 8 * k) && k in {2, 4}
    ensures Int(v) < if k == 2 then 0x1_0000 else 0x1_0000_0000
    ensures IntToBytes(v, k).Ok?
    ensures Packs([R(k)], [IntToBytes(v, k).value], if k == 2 then Two(Int(v)) else Four(Int(v)))
  {
    hide Packs, ToBE;
    Pow2Values();
    BigEndian(Int(v));
    PackRaw(k, ToBE(Int(v), k));
  }

  lemma DiagPacked(c: MeterChannel)
    requires MeterInWidth(c)
    ensures Packs(METER_DIAG_BYTE + [U(8)],
                  [c.diagOverVol, c.diagUnderVol, c.diagLlVol, c.diagOverCal, c.diagOverCur, c.overCurTolVal],
                  MeterImage(c)[..2])
  {
    hide Packs, Int;
    DiagByte(c.diagOverVol, c.diagUnderVol, c.diagLlVol, c.diagOverCal, c.diagOverCur);
    ByteField(c.overCurTolVal);
    var u := [c.diagOverVol, c.diagUnderVol, c.diagLlVol, c.diagOverCal, c.diagOverCur];
    var x := 128 * Int(c.diagOverVol) + 64 * Int(c.diagUnderVol) + 32 * Int(c.diagLlVol)
             + 4 * Int(c.diagOverCal) + 2 * Int(c.diagOverCur);
    Both(METER_DIAG_BYTE, [U(8)], u, [c.overCurTolVal], [x], [Int(c.overCurTolVal)]);
    assert [x] + [Int(c.overCurTolVal)] == MeterImage(c)[..2];
    assert u + [c.overCurTolVal]
        == [c.diagOverVol, c.diagUnderVol, c.diagLlVol, c.diagOverCal, c.diagOverCur, c.overCurTolVal];
  }

  lemma CurrentPacked(time: Value, primary: Value)
    requires Uint(time, 16) && Uint(primary, 32)
    ensures IntToBytes(time, 2).Ok? && IntToBytes(primary, 4).Ok?
    ensures Int(time) < 0x1_0000 && Int(primary) < 0x1_0000_0000
    ensures Packs(METER_CURRENT, [IntToBytes(time, 2).value, IntToBytes(primary, 4).value],
                  Two(Int(time)) + Four(Int(primary)))
  {
    hide Packs, Int, IntToBytes, Two, Four;
    RawNumber(time, 2);
    RawNumber(primary, 4);
    var u, v := IntToBytes(time, 2).value, IntToBytes(primary, 4).value;
    Both([R(2)], [R(4)], [u], [v], Two(Int(time)), Four(Int(primary)));
    assert [R(2)] + [R(4)] == METER_CURRENT && [u] + [v] == [u, v];
  }

  lemma VoltagePacked(current: Value, second: Value, prim: Value)
    requires Uint(current, 8) && Uint(second, 16) && Uint(prim, 32)
    ensures IntToBytes(second, 2).Ok? && IntToBytes(prim, 4).Ok?
    ensures Int(current) < 256 && Int(second) < 0x1_0000 && Int(prim) < 0x1_0000_0000
    ensures Packs([U(8), R(2), R(4)], [current, IntToBytes(second, 2).value, IntToBytes(prim, 4).value],
                  [Int(current)] + (Two(Int(second)) + Four(Int(prim))))
  {
    hide Packs, Int, IntToBytes, Two, Four;
    ByteField(current);
    CurrentPacked(second, prim);
    var u, v := IntToBytes(second, 2).value, IntToBytes(prim, 4).value;
    Both([U(8)], METER_CURRENT, [current], [u, v], [Int(current)], Two(Int(second)) + Four(Int(prim)));
    assert [U(8)] + METER_CURRENT == [U(8), R(2), R(4)] && [current] + [u, v] == [current, u, v];
  }

  lemma FourPadded()
    ensures Packs([P(8), P(8), P(8), P(8)], [], Zeroes(4))
  {
    hide Packs;
    PackPadding(1);
    var none: seq<Value> := [];
    Both([P(8)], [P(8)], none, none, Zeroes(1), Zeroes(1));
    Both([P(8)] + [P(8)], [P(8)] + [P(8)], none + none, none + none, Zeroes(1) + Zeroes(1), Zeroes(1) + Zeroes(1));
    assert [P(8)] + [P(8)] + ([P(8)] + [P(8)]) == [P(8), P(8), P(8), P(8)];
    assert none + none + (none + none) == none && Zeroes(1) + Zeroes(1) + (Zeroes(1) + Zeroes(1)) == Zeroes(4);
  }

  lemma MeterPacked(c: MeterChannel)
    requires MeterInWidth(c)
    ensures MeterRow(c).Ok? && Packs(METER_CHANNEL, MeterRow(c).value, MeterImage(c))
  {
    hide Packs, Int, IntToBytes, Two, Four;
    DiagPacked(c);
    CurrentPacked(c.overCurTolTime, c.ctPrimaryCur);
    HoursByte(c.reCurDir, c.actHourMeter, c.ctSecondCur, c.enGateCirHourMeter);
    VoltagePacked(c.llCurMeasure, c.vtSecondVol, c.vtPrimVol);
    FourPadded();
    var t, p := IntToBytes(c.overCurTolTime, 2).value, IntToBytes(c.ctPrimaryCur, 4).value;
    var s, q := IntToBytes(c.vtSecondVol, 2).value, IntToBytes(c.vtPrimVol, 4).value;
    var u0 := [c.diagOverVol, c.diagUnderVol, c.diagLlVol, c.diagOverCal, c.diagOverCur, c.overCurTolVal];
    var u2 := [c.reCurDir, c.actHourMeter, c.ctSecondCur, c.enGateCirHourMeter];
    var a1 := Two(Int(c.overCurTolTime)) + Four(Int(c.ctPrimaryCur));
    var a2 := [128 * Int(c.reCurDir) + 64 * Int(c.actHourMeter) + 16 * Int(c.ctSecondCur)
               + 8 * Int(c.enGateCirHourMeter)];
    var a3 := [Int(c.llCurMeasure)] + (Two(Int(c.vtSecondVol)) + Four(Int(c.vtPrimVol)));
    var f0, f3, f4 := METER_DIAG_BYTE + [U(8)], [U(8), R(2), R(4)], [P(8), P(8), P(8), P(8)];
    Five(f0, METER_CURRENT, METER_HOURS, f3, f4, u0, [t, p], u2, [c.llCurMeasure, s, q], [],
         MeterImage(c)[..2], a1, a2, a3, Zeroes(4));
    MeterChannelPieces();
    assert u0 + [t, p] + u2 + [c.llCurMeasure, s, q] + [] == MeterValues(c, t, p, s, q);
    assert MeterImage(c)[..2] + a1 + a2 + a3 + Zeroes(4) == MeterImage(c);
  }

  lemma MeterChannelPieces()
    ensures METER_DIAG_BYTE + [U(8)] + METER_CURRENT + METER_HOURS + [U(8), R(2), R(4)] + [P(8), P(8), P(8), P(8)]
         == METER_CHANNEL
  {
  }

  // ---------- records ----------

  lemma RecordPacked(head: Format, hv: seq<Value>, ha: Bytes, channel: Format, rows: seq<seq<Value>>,
                     images: seq<Bytes>)
    requires Packs(head, hv, ha) && |rows| == |images|
    requires forall i :: 0 <= i < |rows| ==> Packs(channel, rows[i], images[i])
    ensures Packs(head + Repeat(channel, |rows|), hv + Concat(rows), ha + Concat(images))
  {
    hide Packs, Concat, Repeat;
    Rows(channel, rows, images);
    Both(head, Repeat(channel, |rows|), hv, Concat(rows), ha, Concat(images));
  }

  lemma InputsPacked(delays: seq<Value>, n: nat)
    requires n == 4 * |delays| && n <= 16 && forall d :: d in delays ==> Uint(d, 4)
    ensures Packs(HEADER + Repeat(DI_CHANNEL, n), [Num(0x02)] + Concat(DiRows(delays, n)),
                  [0, 0x02] + Concat(DiImages(delays, n)))
  {
    hide Packs, Concat, Repeat, DiImage, HEADER, DI_CHANNEL;
    HeadPacked(0x02);
    forall i | 0 <= i < n
      ensures Packs(DI_CHANNEL, DiRows(delays, n)[i], DiImages(delays, n)[i])
    {
      assert DelayGroup(i) == i / 4;
      DiPacked(delays[i / 4]);
    }
    RecordPacked(HEADER, [Num(0x02)], [0, 0x02], DI_CHANNEL, DiRows(delays, n), DiImages(delays, n));
  }

  lemma OutputsPacked(b: Body, n: nat)
    requires WellShaped(Sm1223(n), b) && InWidth(Sm1223(n), b)
    ensures Packs(HEADER + Repeat(DQ_CHANNEL, n), [Num(0x02)] + Concat(DqRows(b, n)),
                  [0, 0x02] + Concat(seq(n, i requires 0 <= i < n => DqImage(b.substitute[i], b.behaviorWithOD))))
  {
    hide Packs, Concat, Repeat, DqImage, DqRow, HEADER, DQ_CHANNEL;
    HeadPacked(0x02);
    var images := seq(n, i requires 0 <= i < n => DqImage(b.substitute[i], b.behaviorWithOD));
    forall i | 0 <= i < n
      ensures Packs(DQ_CHANNEL, DqRows(b, n)[i], images[i])
    {
      DqPacked(b.substitute[i], b.behaviorWithOD);
    }
    RecordPacked(HEADER, [Num(0x02)], [0, 0x02], DQ_CHANNEL, DqRows(b, n), images);
  }

  lemma RtdRecord(b: Body, n: nat)
    requires WellShaped(Rtd(n), b) && InWidth(Rtd(n), b)
    ensures Serialize(Rtd(n), b) == Ok(Record(Rtd(n), b))
  {
    hide Concat, Repeat, RtdImage, RtdRow, HEADER, RTD_CHANNEL;
    HeadPacked(0x1A);
    var images := seq(n, i requires 0 <= i < n => RtdImage(b.rtd[i], b.integTime, b.powerAlarm));
    forall i | 0 <= i < n
      ensures Packs(RTD_CHANNEL, RtdRows(b)[i], images[i])
    {
      RtdPacked(b, b.rtd[i]);
    }
    RecordPacked(HEADER, [Num(0x1A)], [0, 0x1A], RTD_CHANNEL, RtdRows(b), images);
  }

  lemma AiRecord(b: Body, n: nat)
    requires WellShaped(Ai(n), b) && InWidth(Ai(n), b)
    ensures Serialize(Ai(n), b) == Ok(Record(Ai(n), b))
  {
    hide Concat, Repeat, AiImage, AiRow, HEADER, AI_CHANNEL;
    HeadPacked(0x1A);
    var images := seq(n, i requires 0 <= i < n => AiImage(b.ai[i], b.integTime, b.powerAlarm));
    forall i | 0 <= i < n
      ensures Packs(AI_CHANNEL, AiRows(b)[i], images[i])
    {
      AiPacked(b, b.ai[i]);
    }
    RecordPacked(HEADER, [Num(0x1A)], [0, 0x1A], AI_CHANNEL, AiRows(b), images);
  }

  lemma {:induction false} MeterRowsPacked(cs: seq<MeterChannel>)
    requires forall i :: 0 <= i < |cs| ==> MeterInWidth(cs[i])
    ensures MeterRows(cs).Ok?
    ensures forall i :: 0 <= i < |cs| ==> Packs(METER_CHANNEL, MeterRows(cs).value[i], MeterImage(cs[i]))
  {
    hide Packs, MeterRow, MeterImage, MeterInWidth, METER_CHANNEL;
    if cs != [] {
      MeterRowsPacked(cs[..|cs| - 1]);
      MeterPacked(cs[|cs| - 1]);
    }
  }

  lemma FrontPackedUp(m: MeterModule)
    requires MeterModuleInWidth(m)
    ensures Packs(METER_FRONT, [m.moduleVersion] + [Num(0x51), Num(0x02), Num(0x01), Num(0x08)]
                               + MeterModuleRow(m) + [Num(0x03), Num(0x14)], ModuleImage(m))
  {
    hide Packs, METER_HEADERS, METER_MODULE, METER_CHANNEL_HEADER, MeterModuleRow, Int;
    HeadersPacked(m.moduleVersion);
    ModulePacked(m);
    ChannelHeadPacked();
    var heads := [m.moduleVersion] + [Num(0x51), Num(0x02), Num(0x01), Num(0x08)];
    var a := [Int(m.moduleVersion), 0x51, 0x02, 0x01, 0x08];
    Both(METER_HEADERS, METER_MODULE, heads, MeterModuleRow(m), a, ModuleImage(m)[5..13]);
    Both(METER_HEADERS + METER_MODULE, METER_CHANNEL_HEADER, heads + MeterModuleRow(m), [Num(0x03), Num(0x14)],
         a + ModuleImage(m)[5..13], [0x03, 0x14]);
    assert a + ModuleImage(m)[5..13] + [0x03, 0x14] == ModuleImage(m);
  }

  lemma MeterRecord(b: Body)
    requires WellShaped(Meter, b) && InWidth(Meter, b)
    ensures Serialize(Meter, b) == Ok(Record(Meter, b))
  {
    hide Concat, Repeat, MeterImage, ModuleImage, MeterModuleRow, METER_FRONT, METER_CHANNEL, MeterRows, MeterInWidth;
    FrontPackedUp(b.meter);
    MeterRowsPacked(b.phases);
    var images := seq(3, i requires 0 <= i < 3 => MeterImage(b.phases[i]));
    var front := [b.meter.moduleVersion] + [Num(0x51), Num(0x02), Num(0x01), Num(0x08)]
                 + MeterModuleRow(b.meter) + [Num(0x03), Num(0x14)];
    RecordPacked(METER_FRONT, front, ModuleImage(b.meter), METER_CHANNEL, MeterRows(b.phases).value, images);
    MeterFormatIs();
  }

  lemma MeterFormatIs()
    ensures FormatOf(Meter) == METER_FRONT + Repeat(METER_CHANNEL, 3)
  {
  }

  lemma DigitalRecord(b: Body, n: nat)
    requires WellShaped(Sm1223(n), b) && InWidth(Sm1223(n), b)
    ensures Serialize(Sm1223(n), b) == Ok(Record(Sm1223(n), b))
  {
    hide Concat, Repeat, DiRows, DqRows, DiImages, DqImage, HEADER, DI_CHANNEL, DQ_CHANNEL;
    InputsPacked(b.delays, n);
    OutputsPacked(b, n);
    var images := seq(n, i requires 0 <= i < n => DqImage(b.substitute[i], b.behaviorWithOD));
    Both(HEADER + Repeat(DI_CHANNEL, n), HEADER + Repeat(DQ_CHANNEL, n),
         [Num(0x02)] + Concat(DiRows(b.delays, n)), [Num(0x02)] + Concat(DqRows(b, n)),
         [0, 0x02] + Concat(DiImages(b.delays, n)), [0, 0x02] + Concat(images));
  }

  lemma InputRecord(b: Body)
    requires WellShaped(Sm1221, b) && InWidth(Sm1221, b)
    ensures Serialize(Sm1221, b) == Ok(Record(Sm1221, b))
  {
    hide Concat, Repeat, DiRows, DiImages, HEADER, DI_CHANNEL;
    InputsPacked(b.delays, 8);
  }

  /** Every in-width body is written as the bytes of its layout. */
  lemma SerializedAs(k: Kind, b: Body)
    requires KnownKind(k) && WellShaped(k, b) && InWidth(k, b)
    ensures Serialize(k, b) == Ok(Record(k, b))
  {
    hide Pack, Parameters, FormatOf, InWidth, Record;
    match k
    case Sm1223(n) => DigitalRecord(b, n);
    case Rtd(n) => RtdRecord(b, n);
    case Ai(n) => AiRecord(b, n);
    case Meter => MeterRecord(b);
    case Sm1221 => InputRecord(b);
    case _ => PlainRecord(k, b);
  }

  lemma PlainRecord(k: Kind, b: Body)
    requires (k.SensDi? || k.NoModule?) && WellShaped(k, b) && InWidth(k, b)
    ensures Serialize(k, b) == Ok(Record(k, b))
  {
  }

  // ---------- where a channel lies ----------

  lemma RoomFor(i: nat, n: nat, k: nat)
    requires i < n
    ensures i * k + k <= n * k
  {
    assert n * k == (i + 1) * k + (n - i - 1) * k;
    assert (i + 1) * k == i * k + k && (n - i - 1) * k >= 0;
  }

  lemma {:induction false} ImageAt(images: seq<Bytes>, k: nat, i: nat, at: nat)
    requires i < |images| && at == i * k && forall j :: 0 <= j < |images| ==> |images[j]| == k
    ensures at + k <= |Concat(images)| && Concat(images)[at..at + k] == images[i]
  {
    var n := |images| - 1;
    var front := Concat(images[..n]);
    ConcatLength(images[..n], k);
    if i < n {
      RoomFor(i, n, k);
      ImageAt(images[..n], k, i, at);
      assert (front + images[n])[at..at + k] == front[at..at + k];
    } else {
      assert (front + images[n])[at..at + k] == images[n];
    }
  }

  lemma Shifted(head: Bytes, body: Bytes, x: nat, k: nat)
    requires x + k <= |body|
    ensures (head + body)[|head| + x..|head| + x + k] == body[x..x + k]
  {
  }

  lemma Behind(head: Bytes, images: seq<Bytes>, k: nat, i: nat, at: nat)
    requires i < |images| && (forall j :: 0 <= j < |images| ==> |images[j]| == k) && at == |head| + i * k
    ensures at + k <= |head + Concat(images)| && (head + Concat(images))[at..at + k] == images[i]
  {
    hide Concat;
    var x := at - |head|;
    ImageAt(images, k, i, x);
    Shifted(head, Concat(images), x, k);
  }

  /** The fields of RTD channel i in the record, byte by byte. */
  lemma RtdBytes(b: Body, n: nat, i: nat)
    requires n in {4, 8} && WellShaped(Rtd(n), b) && InWidth(Rtd(n), b) && i < n
    ensures Serialize(Rtd(n), b).Ok? && |Serialize(Rtd(n), b).value| == 2 + 26 * n
    ensures var r, o, c := Serialize(Rtd(n), b).value, 2 + 26 * i, b.rtd[i];
      && r[0] == 0 && r[1] == 0x1A
      && r[o] == Int(c.kind) && r[o + 1] == Int(c.range) && r[o + 2] == Int(c.temperCoeff)
      && r[o + 3] == 16 * Int(b.integTime) + Int(c.smooth) && r[o + 4] == Int(c.temperUnit) && r[o + 5] == 0
      && r[o + 6] == 128 * Int(c.overflowAlarm) + 64 * Int(c.underflowAlarm) + 16 * Int(c.openWireAlarm)
                     + Int(b.powerAlarm)
      && forall j :: o + 7 <= j < o + 26 ==> r[j] == 0
  {
    hide Serialize, Int, Uint, Concat;
    SerializedAs(Rtd(n), b);
    var images := seq(n, i requires 0 <= i < n => RtdImage(b.rtd[i], b.integTime, b.powerAlarm));
    Behind([0, 0x1A], images, 26, i, 2 + 26 * i);
    ConcatLength(images, 26);
    SliceAt(Record(Rtd(n), b), 2 + 26 * i, images[i]);
  }

  /** A slice that is known gives the single bytes. */
  lemma SliceAt(r: Bytes, o: nat, image: Bytes)
    requires o + |image| <= |r| && r[o..o + |image|] == image
    ensures forall j :: o <= j < o + |image| ==> r[j] == image[j - o]
  {
    forall j | o <= j < o + |image|
      ensures r[j] == image[j - o]
    {
      assert r[j] == r[o..o + |image|][j - o];
    }
  }

  /** The fields of AI channel i in the record, byte by byte. */
  lemma AiBytes(b: Body, n: nat, i: nat)
    requires n in {4, 8} && WellShaped(Ai(n), b) && InWidth(Ai(n), b) && i < n
    ensures Serialize(Ai(n), b).Ok? && |Serialize(Ai(n), b).value| == 2 + 26 * n
    ensures var r, o, c := Serialize(Ai(n), b).value, 2 + 26 * i, b.ai[i];
      && r[0] == 0 && r[1] == 0x1A
      && r[o] == Int(c.kind) && r[o + 1] == Int(c.range) && r[o + 2] == 0
      && r[o + 3] == 16 * Int(b.integTime) + Int(c.smooth) && r[o + 4] == 0 && r[o + 5] == 0
      && r[o + 6] == 128 * Int(c.overflowAlarm) + 64 * Int(c.underflowAlarm) + 16 * Int(c.openWireAlarm)
                     + Int(b.powerAlarm)
      && forall j :: o + 7 <= j < o + 26 ==> r[j] == 0
  {
    hide Serialize, Int, Uint, Concat;
    SerializedAs(Ai(n), b);
    var images := seq(n, i requires 0 <= i < n => AiImage(b.ai[i], b.integTime, b.powerAlarm));
    Behind([0, 0x1A], images, 26, i, 2 + 26 * i);
    ConcatLength(images, 26);
    SliceAt(Record(Ai(n), b), 2 + 26 * i, images[i]);
  }

  /** An SM1223 record: the inputs behind the first tag, the outputs behind the second. */
  lemma DigitalBytes(b: Body, n: nat, i: nat)
    requires n in {8, 16} && WellShaped(Sm1223(n), b) && InWidth(Sm1223(n), b) && i < n
    ensures Serialize(Sm1223(n), b).Ok? && |Serialize(Sm1223(n), b).value| == 4 + 4 * n
    ensures var r, o, p := Serialize(Sm1223(n), b).value, 2 + 2 * i, 4 + 2 * n + 2 * i;
      && r[0] == 0 && r[1] == 0x02 && r[2 + 2 * n] == 0 && r[3 + 2 * n] == 0x02
      && r[o] == 0 && r[o + 1] == Int(b.delays[i / 4])
      && r[p] == 0 && r[p + 1] == 128 * Int(b.substitute[i]) + 16 * Int(b.behaviorWithOD)
  {
    hide Serialize, Int, Uint, Concat;
    SerializedAs(Sm1223(n), b);
    var outs := seq(n, i requires 0 <= i < n => DqImage(b.substitute[i], b.behaviorWithOD));
    var front, back := [0, 0x02] + Concat(DiImages(b.delays, n)), [0, 0x02] + Concat(outs);
    Behind([0, 0x02], DiImages(b.delays, n), 2, i, 2 + 2 * i);
    Behind([0, 0x02], outs, 2, i, 2 + 2 * i);
    ConcatLength(DiImages(b.delays, n), 2);
    ConcatLength(outs, 2);
    SliceAt(front, 2 + 2 * i, DiImages(b.delays, n)[i]);
    SliceAt(back, 2 + 2 * i, outs[i]);
    assert Record(Sm1223(n), b) == front + back;
  }

  lemma InputBytes(b: Body, i: nat)
    requires WellShaped(Sm1221, b) && InWidth(Sm1221, b) && i < 8
    ensures Serialize(Sm1221, b).Ok? && |Serialize(Sm1221, b).value| == 18
    ensures var r, o := Serialize(Sm1221, b).value, 2 + 2 * i;
      r[0] == 0 && r[1] == 0x02 && r[o] == 0 && r[o + 1] == Int(b.delays[i / 4])
  {
    hide Serialize, Int, Uint, Concat;
    SerializedAs(Sm1221, b);
    Behind([0, 0x02], DiImages(b.delays, 8), 2, i, 2 + 2 * i);
    ConcatLength(DiImages(b.delays, 8), 2);
    SliceAt(Record(Sm1221, b), 2 + 2 * i, DiImages(b.delays, 8)[i]);
  }

  /** An SM1238 record: module version and module entries, then three channels of 20 bytes. */
  lemma MeterBytes(b: Body, i: nat)
    requires WellShaped(Meter, b) && InWidth(Meter, b) && i < 3
    ensures Serialize(Meter, b).Ok? && |Serialize(Meter, b).value| == 75
    ensures Serialize(Meter, b).value[..15] == ModuleImage(b.meter)
    ensures Serialize(Meter, b).value[15 + 20 * i..35 + 20 * i] == MeterImage(b.phases[i])
  {
    hide Serialize, Int, Uint, Concat, ModuleImage, MeterImage;
    SerializedAs(Meter, b);
    var images := seq(3, i requires 0 <= i < 3 => MeterImage(b.phases[i]));
    Behind(ModuleImage(b.meter), images, 20, i, 15 + 20 * i);
    ConcatLength(images, 20);
  }

  // ---------- which record ----------

  /** The module of every article number, trailing NULs aside. */
  lemma ArticleNumbers(mlfb: string)
    ensures Produce(mlfb) == Sm1223(8) <==> RStrip(mlfb) == "6ES7223-1QH32-0XB0"
    ensures Produce(mlfb) == Sm1223(16) <==> RStrip(mlfb) == "6ES7223-1PL32-0XB0"
    ensures Produce(mlfb) == Ai(4) <==> RStrip(mlfb) == "6ES7231-4HD32-0XB0"
    ensures Produce(mlfb) == Ai(8) <==> RStrip(mlfb) == "6ES7231-4HF32-0XB0"
    ensures Produce(mlfb) == Rtd(4) <==> RStrip(mlfb) == "6ES7231-5PD32-0XB0"
    ensures Produce(mlfb) == Rtd(8) <==> RStrip(mlfb) == "6ES7231-5PF32-0XB0"
    ensures Produce(mlfb) == Meter <==> RStrip(mlfb) == "6ES7238-5XA32-0XB0"
    ensures Produce(mlfb) == SensDi <==> RStrip(mlfb) == "6ES7647-0CM00-1AA2"
    ensures Produce(mlfb) == Sm1221 <==> RStrip(mlfb) == "6ES7221-1BF32-0XB0"
    ensures KnownKind(Produce(mlfb))
  {
    hide RStrip;
  }
}
