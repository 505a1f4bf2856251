/** The JSON schemas of the device configuration, and what they leave open: which configurations
    the schemas accept, and when an accepted configuration can be written as a blob. */
module Schema {
  import opened Common
  import opened Bits
  import opened Modules
  import opened ModuleLaws
  import opened EioConfig

  predicate OneOf(v: Value, codes: set<int>) {
    v.Num? && v.n in codes
  }

  predicate Within(v: Value, low: int, high: int) {
    v.Num? && low <= v.n <= high
  }

  // ---------- SM1231 RTD ----------

  const RTD_OFF: Value := Num(0)
  const RESISTORS: set<int> := {4, 5, 6}
  const THERMALS: set<int> := {7, 8, 9}
  const THERMAL_RANGES: set<int> := {0, 2, 3, 4, 5, 6, 11, 12, 15, 16, 18, 20, 22, 24, 26, 28}

  /** The temperature coefficients of a thermal range. */
  predicate CoeffFits(range: int, coeff: Value) {
    && (range == 0 ==> coeff == Num(0))
    && (range in {2, 4} ==> OneOf(coeff, {0, 1, 2, 3, 5}))
    && (range == 3 ==> OneOf(coeff, {7, 8, 9}))
    && (range in {5, 11} ==> OneOf(coeff, {0, 1, 2, 3}))
    && (range in {6, 12, 16, 18} ==> OneOf(coeff, {8, 9}))
    && (range == 15 ==> OneOf(coeff, {11, 12, 13}))
    && (range in {20, 22} ==> OneOf(coeff, {0, 5}))
    && (range in {24, 26} ==> OneOf(coeff, {11, 13}))
    && (range == 28 ==> coeff == Num(10))
  }

  predicate RtdChannelValid(c: RtdChannel) {
    && OneOf(c.kind, {0} + RESISTORS + THERMALS)
    && OneOf(c.range, {1} + THERMAL_RANGES)
    && OneOf(c.smooth, {0, 1, 2, 3})
    && OneOf(c.temperCoeff, {0, 1, 2, 3, 5, 7, 8, 9, 10, 11, 12, 13})
    && OneOf(c.temperUnit, {0, 1})
    && c.openWireAlarm.Flag? && c.overflowAlarm.Flag? && c.underflowAlarm.Flag?
    && (c.kind == RTD_OFF
        ==> c.openWireAlarm == Flag(false) && c.overflowAlarm == Flag(false) && c.underflowAlarm == Flag(false))
    && (OneOf(c.kind, RESISTORS) ==> OneOf(c.range, {1, 2, 3}) && c.underflowAlarm == Flag(false))
    && (OneOf(c.kind, THERMALS) ==> OneOf(c.range, THERMAL_RANGES) && CoeffFits(c.range.n, c.temperCoeff))
  }

  // ---------- SM1231 AI ----------

  predicate AiChannelValid(c: AiChannel) {
    && OneOf(c.kind, {1, 3})
    && OneOf(c.smooth, {0, 1, 2, 3})
    && c.openWireAlarm.Flag? && c.overflowAlarm.Flag? && c.underflowAlarm.Flag?
    && OneOf(c.range, if c.kind == Num(1) then {7, 8, 9} else {2, 3})
    && (c.range == Num(2) ==> c.openWireAlarm == Flag(false))
    && (c.range == Num(3) ==> c.underflowAlarm == Flag(false))
  }

  // ---------- SM1238 ----------

  const ALL_VARIANTS: set<int> :=
    {0xFE, 0xFD, 0xFC, 0xFB, 0xFA, 0xF9, 0xF8, 0xF7, 0xF6, 0xF5, 0xF0, 0xEF,
     0xE3, 0xE2, 0xE1, 0xE0, 0x9F, 0x9E, 0x9D, 0x9C, 0x9B, 0x9A}

  /** The data variants of a module version and a connection type. */
  function Variants(version: int, conType: int): set<int> {
    if version == 112 then
      if conType in {0x00, 0x0C, 0x0E, 0x0F} then ALL_VARIANTS
      else if conType == 0x0B then
        {0xFE, 0xFD, 0xFC, 0xFB, 0xFA, 0xF9, 0xF8, 0xF0, 0xEF, 0xE3, 0xE2, 0xE1, 0xE0, 0x9F, 0x9E}
      else
        {0xFE, 0xFD, 0xFC, 0xFB, 0xFA, 0xF9, 0xF8, 0xF7, 0xF5, 0xF0, 0xEF, 0xE3, 0xE2, 0xE1, 0xE0, 0x9F,
         0x9E, 0x9D, 0x9C}
    else
      if conType in {0x00, 0x0C, 0x0E, 0x0F} then
        {0xFE, 0xFD, 0xFC, 0xFB, 0xFA, 0xF9, 0xF8, 0xF7, 0xF6, 0xF5, 0xF0, 0xEF, 0xE2, 0xE1, 0xE0, 0x9F,
         0x9E, 0x9D, 0x9C, 0x9B, 0x9A}
      else if conType == 0x0B then
        {0xFE, 0xFD, 0xFC, 0xFB, 0xFA, 0xF9, 0xF8, 0xF0, 0xEF, 0xE2, 0xE1, 0xE0, 0x9F, 0x9E}
      else
        {0xFE, 0xFD, 0xFC, 0xFB, 0xFA, 0xF9, 0xF8, 0xF7, 0xF5, 0xF0, 0xEF, 0xE2, 0xE1, 0xE0, 0x9F, 0x9E,
         0x9D, 0x9C}
  }

  const CON_TYPES: set<int> := {0x00, 0x0B, 0x0C, 0x0E, 0x0F, 0x10}

  predicate MeterModuleValid(m: MeterModule) {
    && OneOf(m.moduleVersion, {32, 112}) && OneOf(m.conType, CON_TYPES)
    && Within(m.range, 0x01, 0x0C) && OneOf(m.lineFreq, {1, 2}) && Within(m.periodMeters, 0, 5)
    && m.meterGate.Flag? && Within(m.lineVolTol, 1, 50) && m.minMaxCal.Flag? && m.diagLineVol.Flag?
    && OneOf(m.dataVariant, Variants(m.moduleVersion.n, m.conType.n))
  }

  predicate MeterChannelValid(conType: Value, c: MeterChannel) {
    && c.diagOverCur.Flag? && c.diagOverCal.Flag? && c.diagLlVol.Flag? && c.diagUnderVol.Flag? && c.diagOverVol.Flag?
    && Within(c.overCurTolVal, 10, 100) && Within(c.overCurTolTime, 0, 60000) && Within(c.ctPrimaryCur, 1, 99999)
    && c.enGateCirHourMeter.Flag? && OneOf(c.ctSecondCur, {0, 2}) && c.actHourMeter.Flag? && c.reCurDir.Flag?
    && Within(c.llCurMeasure, 2, 250) && Within(c.vtSecondVol, 1, 99999) && Within(c.vtPrimVol, 1, 999999)
    && (conType == Num(0x0F) ==> c.ctSecondCur == Num(0))
  }

  // ---------- SM1223, SM1221 and the whole configuration ----------

  const DELAYS: set<int> := {2, 3, 4, 5, 6, 7, 9}

  /** Substitutes are required only when the module is to use them. */
  predicate OutputsValid(b: Body, n: nat)
    requires b.InputsOutputs?
  {
    && OneOf(b.behaviorWithOD, {2, 3})
    && (forall i :: i in b.substitute ==> i < n && OneOf(b.substitute[i], {0, 1}))
    && (b.behaviorWithOD == Num(3) ==> forall i :: 0 <= i < n ==> i in b.substitute)
  }

  predicate BodyValid(k: Kind, b: Body)
    requires WellShaped(k, b)
  {
    match k
    case Sm1223(n) => (forall d :: d in b.delays ==> OneOf(d, DELAYS)) && OutputsValid(b, n)
    case Rtd(_) =>
      b.powerAlarm.Flag? && OneOf(b.integTime, {0, 1, 2, 3}) && forall c :: c in b.rtd ==> RtdChannelValid(c)
    case Ai(_) => b.powerAlarm.Flag? && OneOf(b.integTime, {0, 1, 2, 3}) && forall c :: c in b.ai ==> AiChannelValid(c)
    case Meter => MeterModuleValid(b.meter) && forall c :: c in b.phases ==> MeterChannelValid(b.meter.conType, c)
    case Sm1221 => forall d :: d in b.delays ==> OneOf(d, DELAYS)
    case _ => true
  }

  const NUMBERS: set<string> :=
    {SM1223_AC, SM1223_DC, SM1231_4AI, SM1231_8AI, SM1231_4RTD, SM1231_8RTD, SM1238, SM_SENS_DI, SM1221, NO_MODULE}

  predicate SlotValid(slot: SlotConfig) {
    slot.mlfb in NUMBERS && WellShaped(Produce(slot.mlfb), slot.body) && BodyValid(Produce(slot.mlfb), slot.body)
  }

  /** validate_schema, on the six slots. */
  ghost predicate SchemaValid(config: Config) {
    && (forall i: nat :: i in config <==> 1 <= i <= SLOTS)
    && forall i :: i in config ==> SlotValid(config[i])
  }

  // ---------- what the schemas leave open ----------

  /** The two things the serializers need and the schemas do not ask for: every output channel of an
      SM1223 has a substitute, and the secondary voltages of an SM1238 fit 16 bits. */
  predicate Writable(k: Kind, b: Body)
    requires WellShaped(k, b)
  {
    match k
    case Sm1223(n) => forall i :: 0 <= i < n ==> i in b.substitute
    case Meter => forall c :: c in b.phases ==> !Within(c.vtSecondVol, 0x1_0000, 99999)
    case _ => true
  }

  lemma Widths()
    ensures Pow2(1) == 2 && Pow2(2) == 4 && Pow2(3) == 8 && Pow2(4) == 16 && Pow2(8) == 256
    ensures Pow2(16) == 0x1_0000 && Pow2(32) == 0x1_0000_0000
  {
    assert Pow2(12) == 4096;
    assert Pow2(20) == 0x10_0000;
    assert Pow2(28) == 0x1000_0000;
  }

  lemma {:induction false} ListedNumbers(mlfb: string)
    requires mlfb in NUMBERS
    ensures IsAscii(mlfb) && RStrip(mlfb) == mlfb && |mlfb| <= 20
  {
  }

  lemma VariantsAreBytes(version: int, conType: int, v: int)
    requires v in Variants(version, conType)
    ensures 0 <= v < 256
  {
  }

  lemma SchemaInWidth(k: Kind, b: Body)
    requires KnownKind(k) && WellShaped(k, b) && BodyValid(k, b)
    ensures Writable(k, b) ==> InWidth(k, b)
  {
    hide Pow2, CoeffFits, Variants;
    Widths();
    match k
    case Rtd(n) =>
      forall i | 0 <= i < n
        ensures RtdInWidth(b.rtd[i])
      {
        assert RtdChannelValid(b.rtd[i]);
      }
    case Ai(n) =>
      forall i | 0 <= i < n
        ensures AiInWidth(b.ai[i])
      {
        assert AiChannelValid(b.ai[i]);
      }
    case Meter =>
      VariantsAreBytes(b.meter.moduleVersion.n, b.meter.conType.n, b.meter.dataVariant.n);
      forall i | 0 <= i < 3
        ensures Writable(k, b) ==> MeterInWidth(b.phases[i])
      {
        assert MeterChannelValid(b.meter.conType, b.phases[i]);
      }
    case _ =>
  }

  lemma {:induction false} WideVoltage(cs: seq<MeterChannel>, c: MeterChannel)
    requires c in cs && Within(c.vtSecondVol, 0x1_0000, 99999)
    ensures MeterRows(cs).Err?
  {
    hide Pow2, ToBE;
    Widths();
    var n := |cs| - 1;
    if cs[n] == c {
      assert IntToBytes(c.vtSecondVol, 2).Err?;
    } else {
      WideVoltage(cs[..n], c);
    }
  }

  lemma UnwritableFails(k: Kind, b: Body)
    requires WellShaped(k, b) && !Writable(k, b)
    ensures Serialize(k, b).Err?
  {
    hide Pack, FormatOf, MeterRows, DiRows, DqRows, Concat;
    if k.Meter? {
      var c :| c in b.phases && Within(c.vtSecondVol, 0x1_0000, 99999);
      WideVoltage(b.phases, c);
    }
  }

  lemma {:induction false} OnlyOverflow(cs: seq<MeterChannel>)
    requires forall c ::
          c in cs ==> c.overCurTolTime.Num? && c.ctPrimaryCur.Num? && c.vtSecondVol.Num? && c.vtPrimVol.Num?
    ensures MeterRows(cs).Err? ==> MeterRows(cs).error == OverflowError
  {
    if cs != [] {
      OnlyOverflow(cs[..|cs| - 1]);
    }
  }

  /** What goes wrong with a slot that the schema accepts and that cannot be written: a KeyError for the
      missing output, an OverflowError for the voltage. */
  lemma UnwritableError(slot: SlotConfig)
    requires SlotValid(slot) && !Writable(Produce(slot.mlfb), slot.body)
    ensures Serialize(Produce(slot.mlfb), slot.body)
            == Err(if Produce(slot.mlfb).Sm1223? then KeyError else OverflowError)
  {
    hide Pack, FormatOf, MeterRows, DiRows, DqRows, Concat, NUMBERS, RStrip, Variants;
    var k, b := Produce(slot.mlfb), slot.body;
    UnwritableFails(k, b);
    if k.Meter? {
      var c :| c in b.phases && Within(c.vtSecondVol, 0x1_0000, 99999);
      WideVoltage(b.phases, c);
      forall d | d in b.phases
        ensures d.overCurTolTime.Num? && d.ctPrimaryCur.Num? && d.vtSecondVol.Num? && d.vtPrimVol.Num?
      {
        assert MeterChannelValid(b.meter.conType, d);
      }
      OnlyOverflow(b.phases);
    }
  }

  lemma ValidSlotEncodes(slot: SlotConfig)
    requires SlotValid(slot)
    ensures Writable(Produce(slot.mlfb), slot.body) ==> EncodableSlot(slot) && ShortNumber(slot.mlfb)
    ensures !Writable(Produce(slot.mlfb), slot.body) ==> EncodeSlot(slot).Err?
  {
    hide BodyValid, InWidth, Serialize, Writable, WellShaped, Produce, RStrip, NUMBERS;
    ListedNumbers(slot.mlfb);
    ProduceKnown(slot.mlfb);
    SchemaInWidth(Produce(slot.mlfb), slot.body);
    if !Writable(Produce(slot.mlfb), slot.body) {
      UnwritableFails(Produce(slot.mlfb), slot.body);
    }
  }

  ghost predicate WritableSlots(config: Config)
    requires WellShapedConfig(config)
  {
    forall i :: i in config ==> Writable(Produce(config[i].mlfb), config[i].body)
  }

  lemma ValidIsShaped(config: Config)
    requires SchemaValid(config)
    ensures WellShapedConfig(config)
  {
    hide BodyValid, WellShaped, Produce, NUMBERS;
  }

  /** The schemas do not promise that a configuration can be written: an accepted one is written
      exactly when every output has a substitute and every secondary voltage fits 16 bits. It is
      then also read back, for any checksum function. */
  lemma ValidConfigEncodes(config: Config, crc: Checksum)
    requires SchemaValid(config)
    ensures WellShapedConfig(config)
    ensures ConfigToBlob(config, crc).Ok? <==> WritableSlots(config)
    ensures WritableSlots(config) ==> Encodable(config)
    ensures WritableSlots(config) ==> BlobToConfig(ConfigToBlob(config, crc).value, crc).Ok?
    ensures WritableSlots(config) ==> SameConfig(BlobToConfig(ConfigToBlob(config, crc).value, crc).value, config)
  {
    hide WellShaped, Produce, Writable, SlotValid, EncodableSlot, EncodeSlot, BlobToConfig, Seal, Normalize,
         ShortNumber;
    ValidIsShaped(config);
    forall i | i in config
      ensures Writable(Produce(config[i].mlfb), config[i].body)
              ==> EncodableSlot(config[i]) && ShortNumber(config[i].mlfb)
      ensures !Writable(Produce(config[i].mlfb), config[i].body) ==> EncodeSlot(config[i]).Err?
    {
      ValidSlotEncodes(config[i]);
    }
    if WritableSlots(config) {
      NumbersSurvive(config, crc);
    } else {
      var i :| i in config && !Writable(Produce(config[i].mlfb), config[i].body);
      BadSlot(config, SLOTS, i);
    }
  }

  lemma {:induction false} BadSlot(config: Config, n: nat, i: nat)
    requires WellShapedConfig(config) && 1 <= i <= n && i in config && EncodeSlot(config[i]).Err?
    ensures EncodeSlots(config, n).Err?
  {
    hide EncodeSlot, WellShaped, Produce;
    if i < n {
      BadSlot(config, n - 1, i);
    }
  }
}
