/** Every module's serializer and deserializer are inverse on in-width parameters, and what a
    deserializer reads is always in width. */
module ModuleLaws {
  import opened Common
  import opened Bits
  import opened Modules

  // ---------- shapes of the formats ----------

  lemma DigitalFormats()
    ensures WellFormed(HEADER) && Width(HEADER) == 16 && Carriers(HEADER) == [U(8)]
    ensures WellFormed(DI_CHANNEL) && Width(DI_CHANNEL) == 8 * 0x02 && Carriers(DI_CHANNEL) == [U(4)]
    ensures WellFormed(DQ_CHANNEL) && Width(DQ_CHANNEL) == 8 * 0x02 && Carriers(DQ_CHANNEL) == [U(1), U(2)]
  {
  }

  lemma DigitalArity()
    ensures |Carriers(HEADER)| == 1 && |Carriers(DI_CHANNEL)| == 1 && |Carriers(DQ_CHANNEL)| == 2
  {
    DigitalFormats();
  }

  lemma AnalogPieces()
    ensures Width(RTD_TYPE) == 24 && Carriers(RTD_TYPE) == [U(8), U(8), U(8)]
    ensures Width(AI_TYPE) == 24 && Carriers(AI_TYPE) == [U(8), U(8)]
    ensures Width(INTEG_SMOOTH) == 8 && Carriers(INTEG_SMOOTH) == [U(4), U(4)]
    ensures Width(RTD_UNIT) == 16 && Carriers(RTD_UNIT) == [U(8)]
    ensures Width(AI_GAP) == 16 && Carriers(AI_GAP) == []
    ensures Width(RESERVED) == 152 && Carriers(RESERVED) == []
  {
  }

  lemma AlarmPiece()
    ensures Width(ALARMS) == 8 && Carriers(ALARMS) == [B(1), B(1), B(1), B(1)]
  {
  }

  /** An analog channel record is as long as its header tag says. */
  lemma RtdFormat()
    ensures WellFormed(RTD_CHANNEL) && Width(RTD_CHANNEL) == 8 * 0x1A
    ensures Carriers(RTD_CHANNEL) == [U(8), U(8), U(8), U(4), U(4), U(8), B(1), B(1), B(1), B(1)]
  {
    hide Carriers, Width;
    AnalogPieces();
    AlarmPiece();
    FormatAppend(RTD_TYPE, INTEG_SMOOTH);
    FormatAppend(RTD_TYPE + INTEG_SMOOTH, RTD_UNIT);
    FormatAppend(RTD_TYPE + INTEG_SMOOTH + RTD_UNIT, ALARMS);
    FormatAppend(RTD_TYPE + INTEG_SMOOTH + RTD_UNIT + ALARMS, RESERVED);
  }

  lemma AiFormat()
    ensures WellFormed(AI_CHANNEL) && Width(AI_CHANNEL) == 8 * 0x1A
    ensures Carriers(AI_CHANNEL) == [U(8), U(8), U(4), U(4), B(1), B(1), B(1), B(1)]
  {
    hide Carriers, Width;
    AnalogPieces();
    AlarmPiece();
    FormatAppend(AI_TYPE, INTEG_SMOOTH);
    FormatAppend(AI_TYPE + INTEG_SMOOTH, AI_GAP);
    FormatAppend(AI_TYPE + INTEG_SMOOTH + AI_GAP, ALARMS);
    FormatAppend(AI_TYPE + INTEG_SMOOTH + AI_GAP + ALARMS, RESERVED);
  }

  lemma MeterModulePieces()
    ensures WellFormed(METER_HEADERS) && Width(METER_HEADERS) == 8 + 16 + 16
    ensures Carriers(METER_HEADERS) == [U(8), U(8), U(8), U(8), U(8)]
    ensures WellFormed(METER_CHANNEL_HEADER) && Width(METER_CHANNEL_HEADER) == 16
    ensures Carriers(METER_CHANNEL_HEADER) == [U(8), U(8)]
    ensures Width(METER_ENERGY) == 16 && Carriers(METER_ENERGY) == [B(1), U(3), U(4), U(8)]
  {
  }

  lemma MeterDataPiece()
    ensures Width(METER_DATA) == 32 && Carriers(METER_DATA) == [B(1), B(1), U(8)]
  {
  }

  lemma MeterModuleFormat()
    ensures WellFormed(METER_MODULE) && Width(METER_MODULE) == 8 * 0x08
    ensures Carriers(METER_MODULE) == [U(8), U(8), B(1), U(3), U(4), U(8), B(1), B(1), U(8)]
  {
    hide Carriers, Width;
    MeterModulePieces();
    MeterDataPiece();
    FormatAppend(METER_CONNECTION, METER_ENERGY);
    FormatAppend(METER_CONNECTION + METER_ENERGY, METER_DATA);
  }

  lemma MeterDiagPieces()
    ensures Width(METER_VOLTAGE_DIAG) == 5 && Carriers(METER_VOLTAGE_DIAG) == [B(1), B(1), B(1)]
    ensures Width(METER_CURRENT_DIAG) == 11 && Carriers(METER_CURRENT_DIAG) == [B(1), B(1), U(8)]
    ensures Width(METER_CURRENT) == 48 && Carriers(METER_CURRENT) == [R(2), R(4)]
  {
  }

  lemma MeterHourPiece()
    ensures Width(METER_HOURS) == 8 && Carriers(METER_HOURS) == [B(1), B(1), U(2), B(1)]
  {
  }

  lemma MeterVoltagePiece()
    ensures Width(METER_VOLTAGE) == 88 && Carriers(METER_VOLTAGE) == [U(8), R(2), R(4)]
  {
  }

  lemma MeterChannelFormat()
    ensures WellFormed(METER_CHANNEL) && Width(METER_CHANNEL) == 8 * 0x14
    ensures Carriers(METER_CHANNEL)
         == [B(1), B(1), B(1), B(1), B(1), U(8), R(2), R(4), B(1), B(1), U(2), B(1), U(8), R(2), R(4)]
  {
    hide Carriers, Width;
    MeterDiagPieces();
    MeterHourPiece();
    MeterVoltagePiece();
    var a := METER_VOLTAGE_DIAG + METER_CURRENT_DIAG;
    FormatAppend(METER_VOLTAGE_DIAG, METER_CURRENT_DIAG);
    FormatAppend(a, METER_CURRENT);
    FormatAppend(a + METER_CURRENT, METER_HOURS);
    FormatAppend(a + METER_CURRENT + METER_HOURS, METER_VOLTAGE);
  }

  /** Bytes of a module's data blob. */
  function RecordBytes(k: Kind): nat {
    match k
    case Sm1223(n) => (2 + 0x02 * n) + (2 + 0x02 * n)
    case Rtd(n) => 2 + 0x1A * n
    case Ai(n) => 2 + 0x1A * n
    case Meter => 5 + 0x08 + 2 + 0x14 * 3
    case Sm1221 => 2 + 0x02 * 8
    case SensDi => 14
    case NoModule => 0
  }

  lemma RepeatedFormat(head: Format, channel: Format, n: nat)
    requires WellFormed(head) && WellFormed(channel)
    ensures WellFormed(head + Repeat(channel, n))
    ensures Width(head + Repeat(channel, n)) == Width(head) + n * Width(channel)
    ensures |Carriers(head + Repeat(channel, n))| == |Carriers(head)| + n * |Carriers(channel)|
  {
    RepeatWidth(channel, n);
    RepeatCarriers(channel, n);
    FormatAppend(head, Repeat(channel, n));
  }

  lemma DigitalShape(n: nat)
    ensures WellFormed(FormatOf(Sm1223(n))) && |Carriers(FormatOf(Sm1223(n)))| == 2 + 3 * n
    ensures Width(FormatOf(Sm1223(n))) == 8 * (4 + 4 * n)
    ensures WellFormed(FormatOf(Sm1221)) && |Carriers(FormatOf(Sm1221))| == 9
    ensures Width(FormatOf(Sm1221)) == 8 * 18
  {
    hide Carriers, Width;
    DigitalFormats();
    RepeatedFormat(HEADER, DI_CHANNEL, 8);
    RepeatedFormat(HEADER, DI_CHANNEL, n);
    RepeatedFormat(HEADER, DQ_CHANNEL, n);
    FormatAppend(HEADER + Repeat(DI_CHANNEL, n), HEADER + Repeat(DQ_CHANNEL, n));
  }

  lemma AnalogShape(k: Kind)
    requires k.Rtd? || k.Ai?
    ensures WellFormed(FormatOf(k)) && |Carriers(FormatOf(k))| == ArityOf(k)
    ensures Width(FormatOf(k)) == 8 * RecordBytes(k)
  {
    hide Carriers, Width;
    DigitalFormats();
    if k.Rtd? {
      RtdFormat();
      RepeatedFormat(HEADER, RTD_CHANNEL, k.channels);
    } else {
      AiFormat();
      RepeatedFormat(HEADER, AI_CHANNEL, k.channels);
    }
  }

  lemma MeterShape()
    ensures WellFormed(FormatOf(Meter)) && |Carriers(FormatOf(Meter))| == 61
    ensures Width(FormatOf(Meter)) == 8 * 75
  {
    hide Carriers, Width;
    MeterModulePieces();
    MeterModuleFormat();
    MeterChannelFormat();
    var head := METER_HEADERS + METER_MODULE + METER_CHANNEL_HEADER;
    FormatAppend(METER_HEADERS, METER_MODULE);
    FormatAppend(METER_HEADERS + METER_MODULE, METER_CHANNEL_HEADER);
    RepeatedFormat(head, METER_CHANNEL, 3);
  }

  /** A module's record takes as many values as its parameter list has, and is as many bytes
      long as its header tags announce. */
  lemma RecordShape(k: Kind)
    requires KnownKind(k) && !k.SensDi?
    ensures WellFormed(FormatOf(k))
    ensures |Carriers(FormatOf(k))| == ArityOf(k)
    ensures Width(FormatOf(k)) == 8 * RecordBytes(k)
  {
    match k
    case Sm1223(n) => DigitalShape(n);
    case Meter => MeterShape();
    case Sm1221 => DigitalShape(0);
    case NoModule =>
    case _ => AnalogShape(k);
  }

  // ---------- values in width ----------

  predicate Uint(v: Value, bits: nat) {
    v.Num? && 0 <= v.n < Pow2(bits)
  }

  predicate RtdInWidth(c: RtdChannel) {
    Uint(c.kind, 8) && Uint(c.range, 8) && Uint(c.temperCoeff, 8) && Uint(c.smooth, 4) && Uint(c.temperUnit, 8)
    && c.overflowAlarm.Flag? && c.underflowAlarm.Flag? && c.openWireAlarm.Flag?
  }

  predicate AiInWidth(c: AiChannel) {
    Uint(c.kind, 8) && Uint(c.range, 8) && Uint(c.smooth, 4)
    && c.overflowAlarm.Flag? && c.underflowAlarm.Flag? && c.openWireAlarm.Flag?
  }

  predicate MeterModuleInWidth(m: MeterModule) {
    Uint(m.moduleVersion, 8) && Uint(m.conType, 8) && Uint(m.range, 8) && m.meterGate.Flag?
    && Uint(m.periodMeters, 3) && Uint(m.lineFreq, 4) && Uint(m.lineVolTol, 8)
    && m.minMaxCal.Flag? && m.diagLineVol.Flag? && Uint(m.dataVariant, 8)
  }

  predicate MeterInWidth(c: MeterChannel) {
    c.diagOverVol.Flag? && c.diagUnderVol.Flag? && c.diagLlVol.Flag? && c.diagOverCal.Flag? && c.diagOverCur.Flag?
    && Uint(c.overCurTolVal, 8) && Uint(c.overCurTolTime, 16) && Uint(c.ctPrimaryCur, 32)
    && c.reCurDir.Flag? && c.actHourMeter.Flag? && Uint(c.ctSecondCur, 2) && c.enGateCirHourMeter.Flag?
    && Uint(c.llCurMeasure, 8) && Uint(c.vtSecondVol, 16) && Uint(c.vtPrimVol, 32)
  }

  /** The keys are exactly the channels 0 .. n-1. */
  ghost predicate HasChannels(m: map<nat, Value>, n: nat) {
    forall i: nat :: i in m <==> i < n
  }

  /** Every parameter has the type and width its field has, and no channel is missing. */
  ghost predicate InWidth(k: Kind, b: Body)
    requires WellShaped(k, b)
  {
    match k
    case Sm1223(n) =>
      && (forall d :: d in b.delays ==> Uint(d, 4)) && Uint(b.behaviorWithOD, 2)
      && HasChannels(b.substitute, n)
      && (forall i :: i in b.substitute ==> Uint(b.substitute[i], 1))
    case Rtd(_) => Uint(b.integTime, 4) && b.powerAlarm.Flag? && forall i :: 0 <= i < |b.rtd| ==> RtdInWidth(b.rtd[i])
    case Ai(_) => Uint(b.integTime, 4) && b.powerAlarm.Flag? && forall i :: 0 <= i < |b.ai| ==> AiInWidth(b.ai[i])
    case Meter => MeterModuleInWidth(b.meter) && forall i :: 0 <= i < 3 ==> MeterInWidth(b.phases[i])
    case Sm1221 => forall d :: d in b.delays ==> Uint(d, 4)
    case _ => true
  }

  // ---------- rows ----------

  /** The values of a record: a head, then one equally long row per channel. */
  lemma RecordFits(head: Format, channel: Format, hv: seq<Value>, rows: seq<seq<Value>>)
    requires |hv| == |Carriers(head)|
    requires forall i :: 0 <= i < |rows| ==> |rows[i]| == |Carriers(channel)|
    ensures AllFit(head + Repeat(channel, |rows|), hv + Concat(rows)) <==> AllFit(head, hv) && FitRows(channel, rows)
  {
    AppendFits(head, Repeat(channel, |rows|), hv, Concat(rows));
    RowsFit(channel, rows);
  }

  lemma RtdRowFits(v: seq<Value>)
    requires |v| == 10
    ensures AllFit(RTD_CHANNEL, v) <==> RtdInWidth(ReadRtd(v)) && Uint(v[3], 4) && v[9].Flag?
  {
    RtdFormat();
  }

  lemma AiRowFits(v: seq<Value>)
    requires |v| == 8
    ensures AllFit(AI_CHANNEL, v) <==> AiInWidth(ReadAi(v)) && Uint(v[2], 4) && v[7].Flag?
  {
    AiFormat();
  }

  lemma MeterModuleFits(version: Value, v: seq<Value>)
    requires |v| == 9
    ensures AllFit(METER_MODULE, v) && Uint(version, 8) <==> MeterModuleInWidth(ReadMeterModule(version, v))
  {
    MeterModuleFormat();
  }

  /** The big-endian fields of a meter channel hold 16 and 32 bit numbers. */
  lemma IntBytes(v: Value, k: nat)
    requires Uint(v, 8 * k)
    ensures IntToBytes(v, k).Ok? && IntToBytes(v, k).value.Raw? && |IntToBytes(v, k).value.bytes| == k
    ensures BytesToInt(IntToBytes(v, k).value) == v
  {
    FromBEToBE(v.n, k);
  }

  lemma BytesInt(v: Value, k: nat)
    requires v.Raw? && |v.bytes| == k
    ensures Uint(BytesToInt(v), 8 * k)
    ensures IntToBytes(BytesToInt(v), k) == Ok(v)
  {
    ToBEFromBE(v.bytes);
  }

  lemma MeterValuesFit(v: seq<Value>)
    requires |v| == 15
    ensures AllFit(METER_CHANNEL, v)
       <==> (&& v[0].Flag? && v[1].Flag? && v[2].Flag? && v[3].Flag? && v[4].Flag? && Uint(v[5], 8)
             && v[6].Raw? && |v[6].bytes| == 2 && v[7].Raw? && |v[7].bytes| == 4
             && v[8].Flag? && v[9].Flag? && Uint(v[10], 2) && v[11].Flag? && Uint(v[12], 8)
             && v[13].Raw? && |v[13].bytes| == 2 && v[14].Raw? && |v[14].bytes| == 4)
  {
    MeterChannelFormat();
  }

  lemma MeterRowFits(c: MeterChannel)
    requires MeterInWidth(c)
    ensures MeterRow(c).Ok? && |MeterRow(c).value| == 15
    ensures AllFit(METER_CHANNEL, MeterRow(c).value) && ReadMeter(MeterRow(c).value) == c
  {
    IntBytes(c.overCurTolTime, 2);
    IntBytes(c.ctPrimaryCur, 4);
    IntBytes(c.vtSecondVol, 2);
    IntBytes(c.vtPrimVol, 4);
    var t, p := IntToBytes(c.overCurTolTime, 2).value, IntToBytes(c.ctPrimaryCur, 4).value;
    var s, q := IntToBytes(c.vtSecondVol, 2).value, IntToBytes(c.vtPrimVol, 4).value;
    MeterValuesRead(c, t, p, s, q);
  }

  lemma MeterValuesRead(c: MeterChannel, t: Value, p: Value, s: Value, q: Value)
    requires MeterInWidth(c)
    requires t.Raw? && |t.bytes| == 2 && BytesToInt(t) == c.overCurTolTime
    requires p.Raw? && |p.bytes| == 4 && BytesToInt(p) == c.ctPrimaryCur
    requires s.Raw? && |s.bytes| == 2 && BytesToInt(s) == c.vtSecondVol
    requires q.Raw? && |q.bytes| == 4 && BytesToInt(q) == c.vtPrimVol
    ensures AllFit(METER_CHANNEL, MeterValues(c, t, p, s, q)) && ReadMeter(MeterValues(c, t, p, s, q)) == c
  {
    hide AllFit, Pow2, FromBE, Carriers;
    MeterValuesFit(MeterValues(c, t, p, s, q));
  }

  lemma MeterReadFits(v: seq<Value>)
    requires |v| == 15 && AllFit(METER_CHANNEL, v)
    ensures MeterInWidth(ReadMeter(v))
  {
    MeterValuesFit(v);
    BytesInt(v[6], 2);
    BytesInt(v[7], 4);
    BytesInt(v[13], 2);
    BytesInt(v[14], 4);
  }

  predicate FitRows(fmt: Format, rows: seq<seq<Value>>) {
    forall i :: 0 <= i < |rows| ==> AllFit(fmt, rows[i])
  }

  // ---------- parameters fit and read back ----------

  lemma RtdRowsFit(b: Body)
    requires b.RtdBody? && |b.rtd| > 0 && InWidth(Rtd(|b.rtd|), b)
    ensures FitRows(RTD_CHANNEL, RtdRows(b))
    ensures ReadRtdRows(RtdRows(b)) == b
  {
    forall i | 0 <= i < |b.rtd|
      ensures AllFit(RTD_CHANNEL, RtdRows(b)[i])
    {
      assert RtdInWidth(b.rtd[i]);
      RtdRowFits(RtdRow(b, b.rtd[i]));
    }
    assert RtdRows(b)[0] == RtdRow(b, b.rtd[0]);
    assert ReadRtdRows(RtdRows(b)).rtd == b.rtd;
  }

  lemma AiRowsFit(b: Body)
    requires b.AiBody? && |b.ai| > 0 && InWidth(Ai(|b.ai|), b)
    ensures FitRows(AI_CHANNEL, AiRows(b))
    ensures ReadAiRows(AiRows(b)) == b
  {
    forall i | 0 <= i < |b.ai|
      ensures AllFit(AI_CHANNEL, AiRows(b)[i])
    {
      assert AiInWidth(b.ai[i]);
      AiRowFits(AiRow(b, b.ai[i]));
    }
    assert AiRows(b)[0] == AiRow(b, b.ai[0]);
    assert ReadAiRows(AiRows(b)).ai == b.ai;
  }

  lemma DiRowFits(v: seq<Value>)
    requires |v| == 1
    ensures AllFit(DI_CHANNEL, v) <==> Uint(v[0], 4)
  {
    DigitalFormats();
  }

  lemma DqRowFits(v: seq<Value>)
    requires |v| == 2
    ensures AllFit(DQ_CHANNEL, v) <==> Uint(v[0], 1) && Uint(v[1], 2)
  {
    DigitalFormats();
  }

  lemma DiRowsFit(delays: seq<Value>, n: nat)
    requires n == 4 * |delays| && n <= 16 && forall d :: d in delays ==> Uint(d, 4)
    ensures FitRows(DI_CHANNEL, DiRows(delays, n))
    ensures ReadDelays(DiRows(delays, n)) == delays
  {
    forall i | 0 <= i < n
      ensures AllFit(DI_CHANNEL, DiRows(delays, n)[i])
    {
      DiRowFits([delays[DelayGroup(i)]]);
    }
  }

  lemma DqRowsFit(b: Body, n: nat)
    requires n > 0 && b.InputsOutputs? && n == 4 * |b.delays| && n <= 16
    requires KnownKind(Sm1223(n)) && InWidth(Sm1223(n), b)
    ensures FitRows(DQ_CHANNEL, DqRows(b, n))
    ensures ReadDigital(DiRows(b.delays, n), DqRows(b, n)) == b
  {
    hide AllFit, Carriers;
    forall i | 0 <= i < n
      ensures AllFit(DQ_CHANNEL, DqRows(b, n)[i])
    {
      DqRowFits(DqRow(b.substitute[i], b.behaviorWithOD));
    }
    DiRowsFit(b.delays, n);
    assert DqRows(b, n)[0] == DqRow(b.substitute[0], b.behaviorWithOD);
    assert ReadDigital(DiRows(b.delays, n), DqRows(b, n)).substitute == b.substitute;
  }

  lemma {:induction false} MeterRowsFit(cs: seq<MeterChannel>)
    requires forall i :: 0 <= i < |cs| ==> MeterInWidth(cs[i])
    ensures MeterRows(cs).Ok?
    ensures forall i :: 0 <= i < |cs| ==> MeterRowOf(MeterRows(cs).value[i], cs[i])
  {
    hide AllFit, Carriers, MeterRow, ReadMeter, MeterInWidth;
    if cs != [] {
      MeterRowsFit(cs[..|cs| - 1]);
      MeterRowFits(cs[|cs| - 1]);
    }
  }

  predicate MeterRowOf(row: seq<Value>, c: MeterChannel) {
    |row| == 15 && AllFit(METER_CHANNEL, row) && ReadMeter(row) == c
  }

  lemma HeaderFits(tag: int)
    requires 0 <= tag < 256
    ensures AllFit(HEADER, [Num(tag)])
  {
    DigitalFormats();
    assert Pow2(8) == 256;
  }

  /** A record with a second head and second kind of channel behind the first. */
  lemma TwoRecordsFit(head: Format, di: Format, dq: Format, tag: Value,
                      diRows: seq<seq<Value>>, dqRows: seq<seq<Value>>)
    requires |Carriers(head)| == 1
    requires forall i :: 0 <= i < |diRows| ==> |diRows[i]| == |Carriers(di)|
    requires forall i :: 0 <= i < |dqRows| ==> |dqRows[i]| == |Carriers(dq)|
    ensures AllFit(head + Repeat(di, |diRows|) + (head + Repeat(dq, |dqRows|)),
                   [tag] + Concat(diRows) + ([tag] + Concat(dqRows)))
       <==> AllFit(head, [tag]) && FitRows(di, diRows) && FitRows(dq, dqRows)
  {
    hide AllFit, AllPackable, Carriers, Concat, Repeat;
    RecordFits(head, di, [tag], diRows);
    RecordFits(head, dq, [tag], dqRows);
    RepeatCarriers(di, |diRows|);
    ConcatLength(diRows, |Carriers(di)|);
    FormatAppend(head, Repeat(di, |diRows|));
    AppendFits(head + Repeat(di, |diRows|), head + Repeat(dq, |dqRows|),
               [tag] + Concat(diRows), [tag] + Concat(dqRows));
  }

  lemma DigitalRecordFits(n: nat, diRows: seq<seq<Value>>, dqRows: seq<seq<Value>>)
    requires KnownKind(Sm1223(n)) && |diRows| == n && |dqRows| == n
    requires forall i :: 0 <= i < n ==> |diRows[i]| == 1
    requires forall i :: 0 <= i < n ==> |dqRows[i]| == 2
    requires FitRows(DI_CHANNEL, diRows) && FitRows(DQ_CHANNEL, dqRows)
    ensures var v := [Num(0x02)] + Concat(diRows) + ([Num(0x02)] + Concat(dqRows));
      AllFit(FormatOf(Sm1223(n)), v) && |v| == 2 + 3 * n && ReadBack(Sm1223(n), v) == ReadDigital(diRows, dqRows)
  {
    hide AllFit, Carriers, Chunks, Concat, Repeat, ReadDigital, ReadDelays;
    HeaderFits(0x02);
    DigitalArity();
    TwoRecordsFit(HEADER, DI_CHANNEL, DQ_CHANNEL, Num(0x02), diRows, dqRows);
    ChunksOfConcat(diRows, 1);
    ChunksOfConcat(dqRows, 2);
    var v := [Num(0x02)] + Concat(diRows) + ([Num(0x02)] + Concat(dqRows));
    assert v[1..n + 1] == Concat(diRows) && v[n + 2..] == Concat(dqRows);
  }

  lemma DigitalParameters(n: nat, b: Body)
    requires KnownKind(Sm1223(n)) && WellShaped(Sm1223(n), b) && InWidth(Sm1223(n), b)
    ensures Parameters(Sm1223(n), b).Ok? && AllFit(FormatOf(Sm1223(n)), Parameters(Sm1223(n), b).value)
    ensures |Parameters(Sm1223(n), b).value| == ArityOf(Sm1223(n))
    ensures ReadBack(Sm1223(n), Parameters(Sm1223(n), b).value) == b
  {
    hide AllFit, Concat, ReadBack, FormatOf, ReadDigital, DiRows, DqRows, FitRows;
    DiRowsFit(b.delays, n);
    DqRowsFit(b, n);
    DigitalRecordFits(n, DiRows(b.delays, n), DqRows(b, n));
  }

  lemma InputParameters(b: Body)
    requires WellShaped(Sm1221, b) && InWidth(Sm1221, b)
    ensures Parameters(Sm1221, b).Ok? && AllFit(FormatOf(Sm1221), Parameters(Sm1221, b).value)
    ensures |Parameters(Sm1221, b).value| == ArityOf(Sm1221)
    ensures ReadBack(Sm1221, Parameters(Sm1221, b).value) == b
  {
    HeaderFits(0x02);
    DiRowsFit(b.delays, 8);
    ChunksOfConcat(DiRows(b.delays, 8), 1);
    DigitalFormats();
    RecordFits(HEADER, DI_CHANNEL, [Num(0x02)], DiRows(b.delays, 8));
    assert Parameters(Sm1221, b).value[1..] == Concat(DiRows(b.delays, 8));
  }

  lemma AnalogParameters(k: Kind, b: Body)
    requires KnownKind(k) && (k.Rtd? || k.Ai?) && WellShaped(k, b) && InWidth(k, b)
    ensures Parameters(k, b).Ok? && AllFit(FormatOf(k), Parameters(k, b).value)
    ensures |Parameters(k, b).value| == ArityOf(k)
    ensures ReadBack(k, Parameters(k, b).value) == b
  {
    hide AllFit, Carriers, Width;
    HeaderFits(0x1A);
    DigitalFormats();
    assert Parameters(k, b).value[0..1] == [Num(0x1A)];
    if k.Rtd? {
      RtdFormat();
      RtdRowsFit(b);
      ChunksOfConcat(RtdRows(b), 10);
      RecordFits(HEADER, RTD_CHANNEL, [Num(0x1A)], RtdRows(b));
      assert Parameters(k, b).value[1..] == Concat(RtdRows(b));
    } else {
      AiFormat();
      AiRowsFit(b);
      ChunksOfConcat(AiRows(b), 8);
      RecordFits(HEADER, AI_CHANNEL, [Num(0x1A)], AiRows(b));
      assert Parameters(k, b).value[1..] == Concat(AiRows(b));
    }
  }

  const METER_FRONT: Format := METER_HEADERS + METER_MODULE + METER_CHANNEL_HEADER

  lemma MeterHeadsFit(v: seq<Value>, w: seq<Value>)
    requires |v| == 5 && |w| == 2
    ensures AllFit(METER_HEADERS, v)
            <==> Uint(v[0], 8) && Uint(v[1], 8) && Uint(v[2], 8) && Uint(v[3], 8) && Uint(v[4], 8)
    ensures AllFit(METER_CHANNEL_HEADER, w) <==> Uint(w[0], 8) && Uint(w[1], 8)
  {
    MeterModulePieces();
  }

  /** The values in front of the channels: they fit exactly when each of the three pieces does. */
  lemma MeterFrontFits(heads: seq<Value>, row: seq<Value>, last: seq<Value>)
    requires |heads| == 5 && |row| == 9 && |last| == 2
    ensures |Carriers(METER_FRONT)| == 16 && WellFormed(METER_FRONT)
    ensures AllFit(METER_FRONT, heads + row + last)
       <==> AllFit(METER_HEADERS, heads) && AllFit(METER_MODULE, row) && AllFit(METER_CHANNEL_HEADER, last)
  {
    hide AllFit, Carriers;
    MeterModulePieces();
    MeterModuleFormat();
    AppendFits(METER_HEADERS, METER_MODULE, heads, row);
    FormatAppend(METER_HEADERS, METER_MODULE);
    AppendFits(METER_HEADERS + METER_MODULE, METER_CHANNEL_HEADER, heads + row, last);
    FormatAppend(METER_HEADERS + METER_MODULE, METER_CHANNEL_HEADER);
  }

  lemma MeterRowsRead(b: Body)
    requires b.MeterBody? && MeterRows(b.phases).Ok? && |b.phases| == 3
    requires forall i :: 0 <= i < |MeterRows(b.phases).value| ==> |MeterRows(b.phases).value[i]| == 15
    requires forall i :: 0 <= i < 3 ==> MeterRowOf(MeterRows(b.phases).value[i], b.phases[i])
    ensures ReadMeterRows(b.meter.moduleVersion, MeterModuleRow(b.meter), MeterRows(b.phases).value) == b
  {
    hide MeterRows, ReadMeter, AllFit;
    var rows := MeterRows(b.phases).value;
    assert forall i :: 0 <= i < 3 ==> ReadMeter(rows[i]) == b.phases[i];
    assert ReadMeterRows(b.meter.moduleVersion, MeterModuleRow(b.meter), rows).phases == b.phases;
  }

  lemma MeterArity()
    ensures |Carriers(METER_CHANNEL)| == 15
  {
    MeterChannelFormat();
  }

  /** Where the pieces of a meter record lie. */
  lemma MeterPlaces(heads: seq<Value>, row: seq<Value>, last: seq<Value>, channels: seq<Value>)
    requires |heads| == 5 && |row| == 9 && |last| == 2
    ensures var v := heads + row + last + channels;
      v[0] == heads[0] && v[5..14] == row && v[16..] == channels
  {
    var v := heads + row + last + channels;
    assert v[5..14] == row && v[16..] == channels;
  }

  lemma MeterRecordFits(version: Value, tags: seq<Value>, row: seq<Value>, last: seq<Value>, rows: seq<seq<Value>>)
    requires |tags| == 4 && |row| == 9 && |last| == 2 && |rows| == 3
    requires AllFit(METER_HEADERS, [version] + tags) && AllFit(METER_MODULE, row) && AllFit(METER_CHANNEL_HEADER, last)
    requires forall i :: 0 <= i < 3 ==> |rows[i]| == 15
    requires forall i :: 0 <= i < 3 ==> AllFit(METER_CHANNEL, rows[i])
    ensures AllFit(FormatOf(Meter), [version] + tags + row + last + Concat(rows))
    ensures |[version] + tags + row + last + Concat(rows)| == 61
    ensures ReadBack(Meter, [version] + tags + row + last + Concat(rows)) == ReadMeterRows(version, row, rows)
  {
    hide AllFit, Carriers, Concat, Chunks, Repeat, ReadMeterRows;
    MeterArity();
    MeterFrontFits([version] + tags, row, last);
    RecordFits(METER_FRONT, METER_CHANNEL, [version] + tags + row + last, rows);
    ChunksOfConcat(rows, 15);
    MeterPlaces([version] + tags, row, last, Concat(rows));
  }

  lemma MeterHeads(m: MeterModule)
    requires MeterModuleInWidth(m)
    ensures AllFit(METER_HEADERS, [m.moduleVersion] + [Num(0x51), Num(0x02), Num(0x01), Num(0x08)])
    ensures AllFit(METER_CHANNEL_HEADER, [Num(0x03), Num(0x14)])
    ensures AllFit(METER_MODULE, MeterModuleRow(m))
  {
    assert Pow2(8) == 256;
    MeterModulePieces();
    MeterModuleFits(m.moduleVersion, MeterModuleRow(m));
  }

  lemma MeterParameters(b: Body)
    requires WellShaped(Meter, b) && InWidth(Meter, b)
    ensures Parameters(Meter, b).Ok? && AllFit(FormatOf(Meter), Parameters(Meter, b).value)
    ensures |Parameters(Meter, b).value| == ArityOf(Meter)
    ensures ReadBack(Meter, Parameters(Meter, b).value) == b
  {
    hide AllFit, MeterRows, ReadMeterRows, Concat, ReadBack, FormatOf, MeterModuleRow, ReadMeter;
    MeterRowsFit(b.phases);
    MeterRowsRead(b);
    MeterHeads(b.meter);
    var rows := MeterRows(b.phases).value;
    forall i | 0 <= i < 3
      ensures |rows[i]| == 15 && AllFit(METER_CHANNEL, rows[i])
    {
      assert MeterRowOf(rows[i], b.phases[i]);
    }
    MeterRecordFits(b.meter.moduleVersion, [Num(0x51), Num(0x02), Num(0x01), Num(0x08)],
                    MeterModuleRow(b.meter), [Num(0x03), Num(0x14)], rows);
  }

  /** In-width parameters can be packed, and the unpacking assignments restore every one. */
  lemma ParametersReadBack(k: Kind, b: Body)
    requires KnownKind(k) && !k.SensDi? && WellShaped(k, b) && InWidth(k, b)
    ensures Parameters(k, b).Ok? && AllFit(FormatOf(k), Parameters(k, b).value)
    ensures |Parameters(k, b).value| == ArityOf(k)
    ensures ReadBack(k, Parameters(k, b).value) == b
  {
    match k
    case Sm1223(n) => DigitalParameters(n, b);
    case Meter => MeterParameters(b);
    case Sm1221 => InputParameters(b);
    case NoModule =>
    case _ => AnalogParameters(k, b);
  }

  // ---------- what is read is in width ----------

  lemma RtdRowsRead(rows: seq<seq<Value>>)
    requires |rows| > 0
    requires forall i :: 0 <= i < |rows| ==> |rows[i]| == 10 && AllFit(RTD_CHANNEL, rows[i])
    ensures InWidth(Rtd(|rows|), ReadRtdRows(rows))
  {
    forall i | 0 <= i < |rows|
      ensures RtdInWidth(ReadRtd(rows[i])) && Uint(rows[i][3], 4) && rows[i][9].Flag?
    {
      RtdRowFits(rows[i]);
    }
  }

  lemma AiRowsRead(rows: seq<seq<Value>>)
    requires |rows| > 0
    requires forall i :: 0 <= i < |rows| ==> |rows[i]| == 8 && AllFit(AI_CHANNEL, rows[i])
    ensures InWidth(Ai(|rows|), ReadAiRows(rows))
  {
    forall i | 0 <= i < |rows|
      ensures AiInWidth(ReadAi(rows[i])) && Uint(rows[i][2], 4) && rows[i][7].Flag?
    {
      AiRowFits(rows[i]);
    }
  }

  lemma DigitalRowsRead(di: seq<seq<Value>>, dq: seq<seq<Value>>)
    requires forall i :: 0 <= i < |di| ==> |di[i]| == 1
    requires forall i :: 0 <= i < |dq| ==> |dq[i]| == 2
    requires FitRows(DI_CHANNEL, di) && FitRows(DQ_CHANNEL, dq)
    ensures forall d :: d in ReadDelays(di) ==> Uint(d, 4)
    ensures forall i :: 0 <= i < |dq| ==> Uint(dq[i][0], 1) && Uint(dq[i][1], 2)
  {
    forall i | 0 <= i < |di|
      ensures Uint(di[i][0], 4)
    {
      DiRowFits(di[i]);
    }
    forall i | 0 <= i < |dq|
      ensures Uint(dq[i][0], 1) && Uint(dq[i][1], 2)
    {
      DqRowFits(dq[i]);
    }
  }

  lemma MeterRowsInWidth(version: Value, row: seq<Value>, rows: seq<seq<Value>>)
    requires |row| == 9 && |rows| == 3 && Uint(version, 8) && AllFit(METER_MODULE, row)
    requires forall i :: 0 <= i < 3 ==> |rows[i]| == 15 && AllFit(METER_CHANNEL, rows[i])
    ensures InWidth(Meter, ReadMeterRows(version, row, rows))
  {
    MeterModuleFits(version, row);
    forall i | 0 <= i < 3
      ensures MeterInWidth(ReadMeter(rows[i]))
    {
      MeterReadFits(rows[i]);
    }
  }

  /** The values of one head and n channels, split back into the head and the rows. */
  lemma SplitRecord(head: Format, channel: Format, v: seq<Value>, n: nat)
    requires |v| == |Carriers(head)| + n * |Carriers(channel)|
    requires AllFit(head + Repeat(channel, n), v)
    ensures var h := |Carriers(head)|;
      AllFit(head, v[..h])
      && forall i :: 0 <= i < n ==> AllFit(channel, Chunks(v[h..], n, |Carriers(channel)|)[i])
  {
    hide AllFit, Carriers;
    var h, c := |Carriers(head)|, |Carriers(channel)|;
    var rows := Chunks(v[h..], n, c);
    ConcatOfChunks(v[h..], n, c);
    assert v[..h] + v[h..] == v;
    RecordFits(head, channel, v[..h], rows);
  }

  lemma SplitTwoRecords(head: Format, di: Format, dq: Format, v: seq<Value>, n: nat)
    requires |Carriers(head)| == 1 && |Carriers(di)| == 1 && |Carriers(dq)| == 2 && |v| == 2 + 3 * n
    requires AllFit(head + Repeat(di, n) + (head + Repeat(dq, n)), v)
    ensures FitRows(di, Chunks(v[1..n + 1], n, 1)) && FitRows(dq, Chunks(v[n + 2..], n, 2))
  {
    hide AllFit, AllPackable, Carriers, Chunks, Repeat, Concat;
    var front, back := v[1..n + 1], v[n + 2..];
    ConcatOfChunks(front, n, 1);
    ConcatOfChunks(back, n, 2);
    assert v == [v[0]] + front + ([v[n + 1]] + back);
    RepeatCarriers(di, n);
    FormatAppend(head, Repeat(di, n));
    AppendFits(head + Repeat(di, n), head + Repeat(dq, n), [v[0]] + front, [v[n + 1]] + back);
    RecordFits(head, di, [v[0]], Chunks(front, n, 1));
    RecordFits(head, dq, [v[n + 1]], Chunks(back, n, 2));
  }

  lemma DigitalReadInWidth(n: nat, v: seq<Value>)
    requires KnownKind(Sm1223(n)) && |v| == 2 + 3 * n && AllFit(FormatOf(Sm1223(n)), v)
    ensures WellShaped(Sm1223(n), ReadBack(Sm1223(n), v)) && InWidth(Sm1223(n), ReadBack(Sm1223(n), v))
  {
    hide AllFit, Carriers, Chunks, Repeat;
    DigitalFormats();
    SplitTwoRecords(HEADER, DI_CHANNEL, DQ_CHANNEL, v, n);
    DigitalRowsRead(Chunks(v[1..n + 1], n, 1), Chunks(v[n + 2..], n, 2));
  }

  lemma MeterReadInWidth(v: seq<Value>)
    requires |v| == 61 && AllFit(FormatOf(Meter), v)
    ensures WellShaped(Meter, ReadBack(Meter, v)) && InWidth(Meter, ReadBack(Meter, v))
  {
    hide AllFit, Carriers, Chunks, InWidth;
    var heads, row, last := v[..5], v[5..14], v[14..16];
    MeterFrontFits(heads, row, last);
    MeterChannelFormat();
    SplitRecord(METER_FRONT, METER_CHANNEL, v, 3);
    assert v[..16] == heads + row + last;
    MeterHeadsFit(heads, last);
    MeterRowsInWidth(v[0], row, Chunks(v[16..], 3, 15));
  }

  /** Whatever bytes a record holds, the configuration read from it has the module's shape and
      in-width parameters. */
  lemma ReadBackInWidth(k: Kind, v: seq<Value>)
    requires KnownKind(k) && |v| == ArityOf(k) && AllFit(FormatOf(k), v)
    ensures WellShaped(k, ReadBack(k, v)) && InWidth(k, ReadBack(k, v))
  {
    hide AllFit, Carriers, Chunks;
    match k
    case Sm1223(n) => DigitalReadInWidth(n, v);
    case Rtd(n) =>
      DigitalFormats();
      RtdFormat();
      SplitRecord(HEADER, RTD_CHANNEL, v, n);
      RtdRowsRead(Chunks(v[1..], n, 10));
    case Ai(n) =>
      DigitalFormats();
      AiFormat();
      SplitRecord(HEADER, AI_CHANNEL, v, n);
      AiRowsRead(Chunks(v[1..], n, 8));
    case Meter => MeterReadInWidth(v);
    case Sm1221 =>
      DigitalFormats();
      SplitRecord(HEADER, DI_CHANNEL, v, 8);
      DigitalRowsRead(Chunks(v[1..], 8, 1), []);
    case _ => NoParameters(k);
  }

  // ---------- the module laws ----------

  /** serialize succeeds on in-width parameters, and deserialize restores them whatever bytes
      follow the record in its slot. */
  lemma ModuleRoundTrip(k: Kind, b: Body, extra: Bytes)
    requires KnownKind(k) && WellShaped(k, b) && InWidth(k, b)
    ensures Serialize(k, b).Ok? && |Serialize(k, b).value| == RecordBytes(k)
    ensures Deserialize(k, Serialize(k, b).value + extra) == Ok(b)
  {
    hide AllFit, ReadBack, Parameters, InWidth;
    if !k.SensDi? {
      ParametersReadBack(k, b);
      RecordShape(k);
      FittingIsLossless(FormatOf(k), Parameters(k, b).value);
      UnpackOfPackBytes(FormatOf(k), Parameters(k, b).value, extra);
    }
  }

  /** deserialize accepts exactly the blobs that hold a whole record, and what it reads is in width. */
  lemma DeserializeAccepts(k: Kind, blob: Bytes)
    requires KnownKind(k)
    ensures Deserialize(k, blob).Ok? <==> k.SensDi? || |blob| >= RecordBytes(k)
    ensures Deserialize(k, blob).Ok?
        ==> WellShaped(k, Deserialize(k, blob).value) && InWidth(k, Deserialize(k, blob).value)
  {
    hide AllFit, ReadBack, InWidth;
    if !k.SensDi? && !k.NoModule? {
      RecordShape(k);
      UnpackSucceedsIff(FormatOf(k), ToBits(blob));
      if 8 * |blob| >= Width(FormatOf(k)) {
        PackOfUnpack(FormatOf(k), ToBits(blob));
        ReadBackInWidth(k, Unpack(FormatOf(k), blob).value);
      }
    } else {
      NoParameters(k);
    }
  }

  lemma NoParameters(k: Kind)
    requires k.SensDi? || k.NoModule?
    ensures WellShaped(k, Plain) && InWidth(k, Plain)
  {
  }
}
