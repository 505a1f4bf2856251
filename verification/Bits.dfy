/** The part of the bitstruct format language that the extended-IO codec uses: fields
    u (unsigned), b (boolean), r (raw bytes) and p (padding), most significant bit first,
    the last byte filled up with zero bits. */
module Bits {
  import opened Common

  function Pow2(n: nat): (p: nat)
    ensures p > 0
  {
    if n == 0 then 1 else 2 * Pow2(n - 1)
  }

  lemma {:induction false} Pow2Add(a: nat, b: nat)
    ensures Pow2(a + b) == Pow2(a) * Pow2(b)
  {
    if a > 0 {
      Pow2Add(a - 1, b);
      assert 2 * Pow2(a - 1) * Pow2(b) == 2 * (Pow2(a - 1) * Pow2(b));
    }
  }

  lemma Pow2Values()
    ensures Pow2(1) == 2 && Pow2(2) == 4 && Pow2(3) == 8 && Pow2(4) == 16
    ensures Pow2(8) == 0x100 && Pow2(16) == 0x1_0000 && Pow2(32) == 0x1_0000_0000
  {
    Pow2Add(8, 8);
    Pow2Add(16, 16);
  }

  /** The n low bits of v, most significant first. */
  function BitsOf(v: nat, n: nat): (bits: seq<bool>)
    ensures |bits| == n
  {
    if n == 0 then [] else BitsOf(v / 2, n - 1) + [v % 2 == 1]
  }

  function ValOf(bits: seq<bool>): nat {
    if bits == [] then 0
    else 2 * ValOf(bits[..|bits| - 1]) + if bits[|bits| - 1] then 1 else 0
  }

  lemma {:induction false} ValOfBound(bits: seq<bool>)
    ensures ValOf(bits) < Pow2(|bits|)
  {
    if bits != [] {
      ValOfBound(bits[..|bits| - 1]);
    }
  }

  lemma {:induction false} ValOfBitsOf(v: nat, n: nat)
    requires v < Pow2(n)
    ensures ValOf(BitsOf(v, n)) == v
  {
    if n > 0 {
      ValOfBitsOf(v / 2, n - 1);
      assert BitsOf(v, n)[..n - 1] == BitsOf(v / 2, n - 1);
    }
  }

  lemma {:induction false} BitsOfValOf(bits: seq<bool>)
    ensures BitsOf(ValOf(bits), |bits|) == bits
  {
    if bits != [] {
      BitsOfValOf(bits[..|bits| - 1]);
    }
  }

  function Zeros(n: nat): (z: seq<bool>) {
    seq(n, _ => false)
  }

  // ---------- bytes and bits ----------

  function ToBits(bytes: Bytes): (bits: seq<bool>)
    ensures |bits| == 8 * |bytes|
  {
    if bytes == [] then [] else BitsOf(bytes[0], 8) + ToBits(bytes[1..])
  }

  function ByteOf(bits: seq<bool>): byte
    requires |bits| == 8
  {
    ValOfBound(bits);
    assert Pow2(8) == 256;
    ValOf(bits)
  }

  /** Number of zero bits that fill n bits up to whole bytes. */
  function Fill(n: nat): nat {
    (n + 7) / 8 * 8 - n
  }

  function ToBytes(bits: seq<bool>): (bytes: Bytes)
    ensures 8 * |bytes| == |bits| + Fill(|bits|)
  {
    if bits == [] then []
    else if |bits| < 8 then [ByteOf(bits + Zeros(8 - |bits|))]
    else [ByteOf(bits[..8])] + ToBytes(bits[8..])
  }

  lemma {:induction false} ToBitsToBytes(bits: seq<bool>)
    ensures ToBits(ToBytes(bits)) == bits + Zeros(Fill(|bits|))
  {
    if bits == [] {
    } else if |bits| < 8 {
      var whole := bits + Zeros(8 - |bits|);
      BitsOfValOf(whole);
      assert ToBits([ByteOf(whole)]) == BitsOf(ByteOf(whole), 8) + ToBits([]);
    } else {
      BitsOfValOf(bits[..8]);
      ToBitsToBytes(bits[8..]);
      var tail := ToBytes(bits[8..]);
      assert ToBytes(bits)[1..] == tail;
      assert bits[..8] + bits[8..] == bits;
    }
  }

  lemma {:induction false} ToBytesToBits(bytes: Bytes)
    ensures ToBytes(ToBits(bytes)) == bytes
  {
    if bytes != [] {
      ToBytesToBits(bytes[1..]);
      assert Pow2(8) == 256;
      ValOfBitsOf(bytes[0], 8);
      assert ToBits(bytes)[..8] == BitsOf(bytes[0], 8);
      assert ToBits(bytes)[8..] == ToBits(bytes[1..]);
    }
  }

  lemma {:induction false} ToBitsAppend(a: Bytes, b: Bytes)
    ensures ToBits(a + b) == ToBits(a) + ToBits(b)
  {
    if a == [] {
      assert a + b == b;
    } else {
      ToBitsAppend(a[1..], b);
      assert (a + b)[1..] == a[1..] + b;
    }
  }

  // ---------- big-endian integers ----------

  function ToBE(v: nat, k: nat): (bytes: Bytes)
    ensures |bytes| == k
  {
    ToBytes(BitsOf(v, 8 * k))
  }

  function FromBE(bytes: Bytes): nat {
    ValOf(ToBits(bytes))
  }

  lemma FromBEToBE(v: nat, k: nat)
    requires v < Pow2(8 * k)
    ensures FromBE(ToBE(v, k)) == v
  {
    var bits := BitsOf(v, 8 * k);
    ToBitsToBytes(bits);
    assert bits + Zeros(Fill(|bits|)) == bits;
    ValOfBitsOf(v, 8 * k);
  }

  lemma ToBEFromBE(bytes: Bytes)
    ensures FromBE(bytes) < Pow2(8 * |bytes|)
    ensures ToBE(FromBE(bytes), |bytes|) == bytes
  {
    ValOfBound(ToBits(bytes));
    BitsOfValOf(ToBits(bytes));
    ToBytesToBits(bytes);
  }

  // ---------- fields ----------

  datatype Field =
    | U(width: nat)
    | B(width: nat)
    | R(count: nat)
    | P(width: nat)
  {
    function Width(): nat {
      if R? then 8 * count else width
    }
  }

  type Format = seq<Field>

  /** A field that carries a value. */
  type Carrier = f: Field | !f.P? witness U(1)

  /** bitstruct refuses a field of width zero. */
  predicate WellFormed(fmt: Format) {
    forall i :: 0 <= i < |fmt| ==> fmt[i].Width() > 0
  }

  function Width(fmt: Format): nat {
    if fmt == [] then 0 else fmt[0].Width() + Width(fmt[1..])
  }

  function Carriers(fmt: Format): seq<Carrier> {
    if fmt == [] then []
    else if fmt[0].P? then Carriers(fmt[1..])
    else [fmt[0]] + Carriers(fmt[1..])
  }

  /** Python's int(): a bool counts as 0 or 1. */
  function AsInt(v: Value): Option<int> {
    match v
    case Num(n) => Some(n)
    case Flag(b) => Some(if b then 1 else 0)
    case _ => None
  }

  function Truthy(v: Value): bool {
    match v
    case Num(n) => n != 0
    case Flag(b) => b
    case Raw(bytes) => bytes != []
    case Text(s) => s != ""
  }

  /** bitstruct accepts value v for field f. */
  predicate Packable(f: Carrier, v: Value) {
    match f
    case U(n) => AsInt(v).Some? && 0 <= AsInt(v).value < Pow2(n)
    case B(_) => true
    case R(_) => v.Raw?
  }

  /** v has the type and the width of f, so packing loses nothing. */
  predicate Fits(f: Carrier, v: Value) {
    match f
    case U(n) => v.Num? && 0 <= v.n < Pow2(n)
    case B(_) => v.Flag?
    case R(k) => v.Raw? && |v.bytes| == k
  }

  /** What packing v into f and reading it back gives. */
  function Coerce(f: Carrier, v: Value): Value
    requires Packable(f, v)
  {
    match f
    case U(_) => Num(AsInt(v).value)
    case B(_) => Flag(Truthy(v))
    case R(k) => Raw(Sized(v.bytes, k))
  }

  /** A raw field is cut, or filled with zero bytes, to its size. */
  function Sized(bytes: Bytes, k: nat): (r: Bytes)
    ensures |r| == k
  {
    if |bytes| >= k then bytes[..k] else bytes + seq(k - |bytes|, _ => 0)
  }

  function FieldBits(f: Carrier, v: Value): (bits: seq<bool>)
    requires Packable(f, v)
    ensures |bits| == f.Width()
  {
    match f
    case U(n) => BitsOf(AsInt(v).value, n)
    case B(n) => BitsOf(if Truthy(v) then 1 else 0, n)
    case R(k) => ToBits(Sized(v.bytes, k))
  }

  function FieldValue(f: Carrier, bits: seq<bool>): Value
    requires |bits| == f.Width()
  {
    match f
    case U(_) => Num(ValOf(bits))
    case B(_) => Flag(ValOf(bits) != 0)
    case R(_) => Raw(ToBytes(bits))
  }

  // ---------- packing and unpacking ----------

  function PackBits(fmt: Format, vals: seq<Value>): (r: Result<seq<bool>>)
    ensures r.Ok? ==> |r.value| == Width(fmt)
  {
    if fmt == [] then Ok([])
    else if fmt[0].P? then
      var rest :- PackBits(fmt[1..], vals);
      Ok(Zeros(fmt[0].width) + rest)
    else if vals == [] || !Packable(fmt[0], vals[0]) then Err(BitstructError)
    else
      var rest :- PackBits(fmt[1..], vals[1..]);
      Ok(FieldBits(fmt[0], vals[0]) + rest)
  }

  function UnpackBits(fmt: Format, bits: seq<bool>): Result<seq<Value>> {
    if fmt == [] then Ok([])
    else if |bits| < fmt[0].Width() then Err(BitstructError)
    else
      var rest :- UnpackBits(fmt[1..], bits[fmt[0].Width()..]);
      if fmt[0].P? then Ok(rest)
      else Ok([FieldValue(fmt[0], bits[..fmt[0].Width()])] + rest)
  }

  function Pack(fmt: Format, vals: seq<Value>): (r: Result<Bytes>)
    ensures r.Ok? ==> 8 * |r.value| == Width(fmt) + Fill(Width(fmt))
  {
    var bits :- PackBits(fmt, vals);
    Ok(ToBytes(bits))
  }

  /** Bits behind the last field are ignored. */
  function Unpack(fmt: Format, blob: Bytes): Result<seq<Value>> {
    UnpackBits(fmt, ToBits(blob))
  }

  predicate AllPackable(fmt: Format, vals: seq<Value>) {
    |vals| >= |Carriers(fmt)| &&
    forall i :: 0 <= i < |Carriers(fmt)| ==> Packable(Carriers(fmt)[i], vals[i])
  }

  predicate AllFit(fmt: Format, vals: seq<Value>) {
    |vals| == |Carriers(fmt)| &&
    forall i :: 0 <= i < |vals| ==> Fits(Carriers(fmt)[i], vals[i])
  }

  function Coerced(fmt: Format, vals: seq<Value>): seq<Value>
    requires AllPackable(fmt, vals)
  {
    seq(|Carriers(fmt)|, i requires 0 <= i < |Carriers(fmt)| => Coerce(Carriers(fmt)[i], vals[i]))
  }

  /** The bits a format keeps of its input: padding is cleared, b fields become 0 or 1. */
  function Masked(fmt: Format, bits: seq<bool>): (m: seq<bool>)
    requires |bits| >= Width(fmt)
    ensures |m| == Width(fmt)
  {
    if fmt == [] then []
    else
      var w := fmt[0].Width();
      var head := match fmt[0]
        case P(n) => Zeros(n)
        case B(n) => BitsOf(if ValOf(bits[..w]) != 0 then 1 else 0, n)
        case _ => bits[..w];
      head + Masked(fmt[1..], bits[w..])
  }

  // ---------- the laws ----------

  lemma {:induction false} FieldRoundTrip(f: Carrier, v: Value)
    requires f.Width() > 0 && Packable(f, v)
    ensures FieldValue(f, FieldBits(f, v)) == Coerce(f, v)
  {
    match f
    case U(n) => ValOfBitsOf(AsInt(v).value, n);
    case B(n) =>
      assert Pow2(n) == 2 * Pow2(n - 1);
      ValOfBitsOf(if Truthy(v) then 1 else 0, n);
    case R(k) => ToBytesToBits(Sized(v.bytes, k));
  }

  lemma FieldValueFits(f: Carrier, bits: seq<bool>)
    requires |bits| == f.Width()
    ensures Fits(f, FieldValue(f, bits))
  {
    ValOfBound(bits);
  }

  /** bitstruct packs exactly the lists that have enough values, each in range. */
  lemma {:induction false} PackSucceedsIff(fmt: Format, vals: seq<Value>)
    ensures PackBits(fmt, vals).Ok? <==> AllPackable(fmt, vals)
  {
    if fmt == [] {
    } else if fmt[0].P? {
      PackSucceedsIff(fmt[1..], vals);
    } else {
      var cs := Carriers(fmt);
      assert cs[0] == fmt[0] && cs[1..] == Carriers(fmt[1..]);
      if vals != [] {
        PackSucceedsIff(fmt[1..], vals[1..]);
        if AllPackable(fmt, vals) {
          assert forall i :: 0 <= i < |cs[1..]| ==> cs[1..][i] == cs[i + 1] && vals[1..][i] == vals[i + 1];
        }
        if PackBits(fmt, vals).Ok? {
          forall i | 0 <= i < |cs|
            ensures Packable(cs[i], vals[i])
          {
            if i > 0 { assert cs[1..][i - 1] == cs[i] && vals[1..][i - 1] == vals[i]; }
          }
        }
      }
    }
  }

  lemma {:induction false} UnpackSucceedsIff(fmt: Format, bits: seq<bool>)
    ensures UnpackBits(fmt, bits).Ok? <==> |bits| >= Width(fmt)
  {
    if fmt != [] && |bits| >= fmt[0].Width() {
      UnpackSucceedsIff(fmt[1..], bits[fmt[0].Width()..]);
    }
  }

  /** Unpacking what was packed, whatever bits follow, gives every value as its field sees it. */
  lemma {:induction false} UnpackOfPack(fmt: Format, vals: seq<Value>, rest: seq<bool>)
    requires WellFormed(fmt) && AllPackable(fmt, vals)
    ensures PackBits(fmt, vals).Ok?
    ensures UnpackBits(fmt, PackBits(fmt, vals).value + rest) == Ok(Coerced(fmt, vals))
  {
    hide Coerced, AllPackable, Width, PackBits, UnpackBits;
    PackSucceedsIff(fmt, vals);
    if fmt == [] {
      CoercedPad(fmt, vals);
      UnpackNothing(fmt, vals, rest);
    } else if fmt[0].P? {
      CoercedPad(fmt, vals);
      UnpackOfPack(fmt[1..], vals, rest);
      UnpackPad(fmt, vals, rest);
    } else {
      CoercedCons(fmt, vals);
      UnpackOfPack(fmt[1..], vals[1..], rest);
      UnpackStep(fmt, vals, rest);
    }
  }

  lemma UnpackNothing(fmt: Format, vals: seq<Value>, rest: seq<bool>)
    requires fmt == []
    ensures PackBits(fmt, vals) == Ok([]) && UnpackBits(fmt, [] + rest) == Ok([])
  {
  }

  lemma UnpackPad(fmt: Format, vals: seq<Value>, rest: seq<bool>)
    requires fmt != [] && fmt[0].P? && PackBits(fmt[1..], vals).Ok?
    ensures PackBits(fmt, vals).Ok?
    ensures UnpackBits(fmt, PackBits(fmt, vals).value + rest)
            == UnpackBits(fmt[1..], PackBits(fmt[1..], vals).value + rest)
  {
    var packed := PackBits(fmt, vals).value + rest;
    assert packed[fmt[0].Width()..] == PackBits(fmt[1..], vals).value + rest;
  }

  lemma UnpackStep(fmt: Format, vals: seq<Value>, rest: seq<bool>)
    requires fmt != [] && !fmt[0].P? && vals != [] && fmt[0].Width() > 0 && Packable(fmt[0], vals[0])
    requires PackBits(fmt[1..], vals[1..]).Ok?
    requires UnpackBits(fmt[1..], PackBits(fmt[1..], vals[1..]).value + rest).Ok?
    ensures PackBits(fmt, vals).Ok?
    ensures UnpackBits(fmt, PackBits(fmt, vals).value + rest)
         == Ok([Coerce(fmt[0], vals[0])] + UnpackBits(fmt[1..], PackBits(fmt[1..], vals[1..]).value + rest).value)
  {
    hide FieldBits, FieldValue, Coerce, Packable;
    FieldRoundTrip(fmt[0], vals[0]);
    var w := fmt[0].Width();
    var packed := PackBits(fmt, vals).value + rest;
    assert packed[..w] == FieldBits(fmt[0], vals[0]);
    assert packed[w..] == PackBits(fmt[1..], vals[1..]).value + rest;
  }

  lemma CoercedPad(fmt: Format, vals: seq<Value>)
    requires AllPackable(fmt, vals) && (fmt == [] || fmt[0].P?)
    ensures fmt == [] ==> Coerced(fmt, vals) == []
    ensures fmt != [] ==> AllPackable(fmt[1..], vals) && Coerced(fmt, vals) == Coerced(fmt[1..], vals)
  {
    assert fmt != [] ==> Carriers(fmt) == Carriers(fmt[1..]);
  }

  lemma CoercedCons(fmt: Format, vals: seq<Value>)
    requires fmt != [] && !fmt[0].P? && AllPackable(fmt, vals)
    ensures vals != [] && Packable(fmt[0], vals[0]) && AllPackable(fmt[1..], vals[1..])
    ensures Coerced(fmt, vals) == [Coerce(fmt[0], vals[0])] + Coerced(fmt[1..], vals[1..])
  {
    hide Carriers, Packable, Coerce;
    CarriersCons(fmt);
    var cs := Carriers(fmt);
    assert Packable(cs[0], vals[0]);
    forall i | 0 <= i < |Carriers(fmt[1..])|
      ensures Packable(Carriers(fmt[1..])[i], vals[1..][i])
    {
      assert cs[i + 1] == Carriers(fmt[1..])[i] && Packable(cs[i + 1], vals[i + 1]);
    }
  }

  lemma CarriersCons(fmt: Format)
    requires fmt != [] && !fmt[0].P?
    ensures Carriers(fmt) == [fmt[0]] + Carriers(fmt[1..])
  {
  }

  /** Unpacked values fit their fields, and packing them again restores all but the padding. */
  lemma {:induction false} PackOfUnpack(fmt: Format, bits: seq<bool>)
    requires WellFormed(fmt) && |bits| >= Width(fmt)
    ensures UnpackBits(fmt, bits).Ok?
    ensures AllFit(fmt, UnpackBits(fmt, bits).value)
    ensures PackBits(fmt, UnpackBits(fmt, bits).value) == Ok(Masked(fmt, bits))
  {
    UnpackSucceedsIff(fmt, bits);
    if fmt != [] {
      var w := fmt[0].Width();
      PackOfUnpack(fmt[1..], bits[w..]);
      var vals := UnpackBits(fmt, bits).value;
      var tail := UnpackBits(fmt[1..], bits[w..]).value;
      if !fmt[0].P? {
        var cs := Carriers(fmt);
        assert vals == [FieldValue(fmt[0], bits[..w])] + tail;
        assert cs == [fmt[0]] + Carriers(fmt[1..]);
        FieldValueFits(fmt[0], bits[..w]);
        forall i | 0 <= i < |vals|
          ensures Fits(cs[i], vals[i])
        {
          if i > 0 { assert cs[i] == Carriers(fmt[1..])[i - 1] && vals[i] == tail[i - 1]; }
        }
        assert vals[1..] == tail;
        RepackField(fmt[0], bits[..w]);
      }
    }
  }

  lemma RepackField(f: Carrier, bits: seq<bool>)
    requires |bits| == f.Width()
    ensures Packable(f, FieldValue(f, bits))
    ensures !f.B? ==> FieldBits(f, FieldValue(f, bits)) == bits
  {
    FieldValueFits(f, bits);
    match f
    case U(_) => BitsOfValOf(bits);
    case B(_) =>
    case R(k) =>
      ToBitsToBytes(bits);
      assert Sized(ToBytes(bits), k) == ToBytes(bits);
      assert bits + Zeros(Fill(|bits|)) == bits;
  }

  lemma FittingIsLossless(fmt: Format, vals: seq<Value>)
    requires AllFit(fmt, vals)
    ensures AllPackable(fmt, vals) && Coerced(fmt, vals) == vals
  {
    forall i | 0 <= i < |vals|
      ensures Packable(Carriers(fmt)[i], vals[i]) && Coerce(Carriers(fmt)[i], vals[i]) == vals[i]
    {
      assert Fits(Carriers(fmt)[i], vals[i]);
    }
  }

  /** The byte-level inverse: fitting values survive, behind them any bytes may follow. */
  lemma UnpackOfPackBytes(fmt: Format, vals: seq<Value>, extra: Bytes)
    requires WellFormed(fmt) && AllPackable(fmt, vals)
    ensures Pack(fmt, vals).Ok?
    ensures Unpack(fmt, Pack(fmt, vals).value + extra) == Ok(Coerced(fmt, vals))
  {
    UnpackOfPack(fmt, vals, []);
    var bits := PackBits(fmt, vals).value;
    ToBitsToBytes(bits);
    ToBitsAppend(ToBytes(bits), extra);
    var fill := Zeros(Fill(|bits|)) + ToBits(extra);
    assert ToBits(ToBytes(bits) + extra) == bits + fill;
    UnpackOfPack(fmt, vals, fill);
  }

  // ---------- formats put together from pieces ----------

  lemma {:induction false} FormatAppend(a: Format, b: Format)
    ensures Width(a + b) == Width(a) + Width(b)
    ensures Carriers(a + b) == Carriers(a) + Carriers(b)
  {
    if a == [] {
      assert a + b == b;
    } else {
      assert (a + b)[0] == a[0] && (a + b)[1..] == a[1..] + b;
      FormatAppend(a[1..], b);
    }
  }

  /** n copies of a channel format, as Python's string repetition builds them. */
  function Repeat(fmt: Format, n: nat): Format {
    if n == 0 then [] else Repeat(fmt, n - 1) + fmt
  }

  lemma {:induction false} RepeatWidth(fmt: Format, n: nat)
    requires WellFormed(fmt)
    ensures WellFormed(Repeat(fmt, n)) && Width(Repeat(fmt, n)) == n * Width(fmt)
  {
    if n > 0 {
      RepeatWidth(fmt, n - 1);
      FormatAppend(Repeat(fmt, n - 1), fmt);
      var w := Width(fmt);
      assert (n - 1) * w + w == n * w;
    }
  }

  lemma AppendFits(f: Format, g: Format, u: seq<Value>, v: seq<Value>)
    requires |u| == |Carriers(f)|
    ensures AllFit(f + g, u + v) <==> AllFit(f, u) && AllFit(g, v)
    ensures AllPackable(f + g, u + v) <==> AllPackable(f, u) && AllPackable(g, v)
  {
    FormatAppend(f, g);
    var cs := Carriers(f + g);
    assert forall i :: 0 <= i < |u| ==> cs[i] == Carriers(f)[i] && (u + v)[i] == u[i];
    assert forall i :: 0 <= i < |Carriers(g)| ==> cs[|u| + i] == Carriers(g)[i];
    assert forall i :: 0 <= i < |v| ==> (u + v)[|u| + i] == v[i];
  }

  lemma {:induction false} RowsFit(fmt: Format, rows: seq<seq<Value>>)
    requires forall i :: 0 <= i < |rows| ==> |rows[i]| == |Carriers(fmt)|
    ensures AllFit(Repeat(fmt, |rows|), Concat(rows)) <==> forall i :: 0 <= i < |rows| ==> AllFit(fmt, rows[i])
  {
    hide Carriers;
    if rows == [] {
      NoFields();
    } else {
      hide AllFit, AllPackable;
      var n := |rows| - 1;
      RowsFit(fmt, rows[..n]);
      RepeatCarriers(fmt, n);
      ConcatLength(rows[..n], |Carriers(fmt)|);
      AppendFits(Repeat(fmt, n), fmt, Concat(rows[..n]), rows[n]);
      assert forall i :: 0 <= i < n ==> rows[..n][i] == rows[i];
    }
  }

  lemma NoFields()
    ensures Carriers([]) == [] && AllFit([], []) && AllPackable([], [])
  {
  }

  lemma {:induction false} RepeatCarriers(fmt: Format, n: nat)
    ensures |Carriers(Repeat(fmt, n))| == n * |Carriers(fmt)|
  {
    hide Carriers;
    if n == 0 {
      NoFields();
    } else {
      RepeatCarriers(fmt, n - 1);
      FormatAppend(Repeat(fmt, n - 1), fmt);
      var c := |Carriers(fmt)|;
      assert (n - 1) * c + c == n * c;
    }
  }
}
