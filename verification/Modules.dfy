/** The module (de)serializers of the extended-IO configuration: each signal module's
    parameters, its bit format as data, and the two directions between them. */
module Modules {
  import opened Common
  import opened Bits

  // ---------- configurations ----------

  datatype RtdChannel = RtdChannel(
    kind: Value, range: Value, temperCoeff: Value, smooth: Value, temperUnit: Value,
    overflowAlarm: Value, underflowAlarm: Value, openWireAlarm: Value)

  datatype AiChannel = AiChannel(
    kind: Value, range: Value, smooth: Value,
    overflowAlarm: Value, underflowAlarm: Value, openWireAlarm: Value)

  datatype MeterModule = MeterModule(
    moduleVersion: Value, conType: Value, range: Value, meterGate: Value, periodMeters: Value,
    lineFreq: Value, lineVolTol: Value, minMaxCal: Value, diagLineVol: Value, dataVariant: Value)

  datatype MeterChannel = MeterChannel(
    diagOverVol: Value, diagUnderVol: Value, diagLlVol: Value, diagOverCal: Value, diagOverCur: Value,
    overCurTolVal: Value, overCurTolTime: Value, ctPrimaryCur: Value, reCurDir: Value, actHourMeter: Value,
    ctSecondCur: Value, enGateCirHourMeter: Value, llCurMeasure: Value, vtSecondVol: Value, vtPrimVol: Value)

  /** The module specific part of a slot. A delay time belongs to four channels; substitutes are
      keyed by channel because the configuration schema does not require them all. */
  datatype Body =
    | Plain
    | Inputs(delays: seq<Value>)
    | InputsOutputs(delays: seq<Value>, behaviorWithOD: Value, substitute: map<nat, Value>)
    | RtdBody(integTime: Value, powerAlarm: Value, rtd: seq<RtdChannel>)
    | AiBody(integTime: Value, powerAlarm: Value, ai: seq<AiChannel>)
    | MeterBody(meter: MeterModule, phases: seq<MeterChannel>)

  datatype SlotConfig = SlotConfig(description: string, mlfb: string, body: Body)

  // ---------- choosing a serializer ----------

  datatype Kind = Sm1223(channels: nat) | Ai(channels: nat) | Rtd(channels: nat) | Meter | SensDi | Sm1221 | NoModule

  const SM1223_AC: string := "6ES7223-1QH32-0XB0"
  const SM1223_DC: string := "6ES7223-1PL32-0XB0"
  const SM1231_4AI: string := "6ES7231-4HD32-0XB0"
  const SM1231_8AI: string := "6ES7231-4HF32-0XB0"
  const SM1231_4RTD: string := "6ES7231-5PD32-0XB0"
  const SM1231_8RTD: string := "6ES7231-5PF32-0XB0"
  const SM1238: string := "6ES7238-5XA32-0XB0"
  const SM_SENS_DI: string := "6ES7647-0CM00-1AA2"
  const SM1221: string := "6ES7221-1BF32-0XB0"
  const NO_MODULE: string := "NA"

  /** Python's rstrip('\0'). */
  function RStrip(s: string): (r: string)
    ensures |r| <= |s| && r == s[..|r|]
    ensures forall i :: |r| <= i < |s| ==> s[i] == '\0'
    ensures r != "" ==> r[|r| - 1] != '\0'
  {
    if s != "" && s[|s| - 1] == '\0' then RStrip(s[..|s| - 1]) else s
  }

  function Produce(mlfb: string): Kind {
    var m := RStrip(mlfb);
    if m == SM1223_AC || m == SM1223_DC then Sm1223(if m == SM1223_AC then 8 else 16)
    else if m == SM1231_4AI || m == SM1231_8AI then Ai(if m == SM1231_4AI then 4 else 8)
    else if m == SM1231_4RTD || m == SM1231_8RTD then Rtd(if m == SM1231_4RTD then 4 else 8)
    else if m == SM1238 then Meter
    else if m == SM_SENS_DI then SensDi
    else if m == SM1221 then Sm1221
    else NoModule
  }

  predicate KnownKind(k: Kind) {
    (k.Sm1223? ==> k.channels in {8, 16}) && (k.Ai? || k.Rtd? ==> k.channels in {4, 8})
  }

  // ---------- formats ----------

  const HEADER: Format := [P(8), U(8)]
  const DI_CHANNEL: Format := [P(8), P(4), U(4)]
  const DQ_CHANNEL: Format := [P(8), U(1), P(1), U(2), P(1), P(3)]
  const RTD_TYPE: Format := [U(8), U(8), U(8)]
  const AI_TYPE: Format := [U(8), U(8), P(8)]
  const INTEG_SMOOTH: Format := [U(4), U(4)]
  const RTD_UNIT: Format := [U(8), P(8)]
  const AI_GAP: Format := [P(8), P(8)]
  const ALARMS: Format := [B(1), B(1), P(1), B(1), P(3), B(1)]
  const RESERVED: Format := [P(8), P(144)]
  const RTD_CHANNEL: Format := RTD_TYPE + INTEG_SMOOTH + RTD_UNIT + ALARMS + RESERVED
  const AI_CHANNEL: Format := AI_TYPE + INTEG_SMOOTH + AI_GAP + ALARMS + RESERVED
  // The first field is the module version, which is outside the record proper.
  const METER_HEADERS: Format := [U(8), U(8), U(8), U(8), U(8)]
  const METER_CONNECTION: Format := [U(8), U(8)]
  const METER_ENERGY: Format := [B(1), U(3), U(4), U(8)]
  const METER_DATA: Format := [B(1), P(6), B(1), U(8), P(8), P(8)]
  const METER_MODULE: Format := METER_CONNECTION + METER_ENERGY + METER_DATA
  const METER_CHANNEL_HEADER: Format := [U(8), U(8)]
  const METER_VOLTAGE_DIAG: Format := [B(1), B(1), B(1), P(2)]
  const METER_CURRENT_DIAG: Format := [B(1), B(1), P(1), U(8)]
  const METER_CURRENT: Format := [R(2), R(4)]
  const METER_HOURS: Format := [B(1), B(1), U(2), B(1), P(3)]
  const METER_VOLTAGE: Format := [U(8), R(2), R(4), P(8), P(8), P(8), P(8)]
  const METER_CHANNEL: Format :=
    METER_VOLTAGE_DIAG + METER_CURRENT_DIAG + METER_CURRENT + METER_HOURS + METER_VOLTAGE

  function FormatOf(k: Kind): Format {
    match k
    case Sm1223(n) => HEADER + Repeat(DI_CHANNEL, n) + (HEADER + Repeat(DQ_CHANNEL, n))
    case Rtd(n) => HEADER + Repeat(RTD_CHANNEL, n)
    case Ai(n) => HEADER + Repeat(AI_CHANNEL, n)
    case Meter => METER_HEADERS + METER_MODULE + METER_CHANNEL_HEADER + Repeat(METER_CHANNEL, 3)
    case Sm1221 => HEADER + Repeat(DI_CHANNEL, 8)
    case _ => []
  }

  // ---------- parameter lists ----------

  function DelayGroup(i: nat): nat {
    if i < 4 then 0 else if i < 8 then 1 else if i < 12 then 2 else 3
  }

  function DiRows(delays: seq<Value>, n: nat): (rows: seq<seq<Value>>)
    requires n == 4 * |delays| && n <= 16
    ensures |rows| == n && forall i :: 0 <= i < n ==> |rows[i]| == 1
  {
    seq(n, i requires 0 <= i < n => [delays[DelayGroup(i)]])
  }

  function DqRow(substitute: Value, behavior: Value): seq<Value> {
    [substitute, behavior]
  }

  function DqRows(b: Body, n: nat): (rows: seq<seq<Value>>)
    requires b.InputsOutputs? && forall i :: 0 <= i < n ==> i in b.substitute
    ensures |rows| == n && forall i :: 0 <= i < n ==> |rows[i]| == 2
  {
    seq(n, i requires 0 <= i < n => DqRow(b.substitute[i], b.behaviorWithOD))
  }

  function RtdRow(b: Body, c: RtdChannel): seq<Value>
    requires b.RtdBody?
  {
    [c.kind, c.range, c.temperCoeff, b.integTime, c.smooth, c.temperUnit,
     c.overflowAlarm, c.underflowAlarm, c.openWireAlarm, b.powerAlarm]
  }

  function RtdRows(b: Body): seq<seq<Value>>
    requires b.RtdBody?
  {
    seq(|b.rtd|, i requires 0 <= i < |b.rtd| => RtdRow(b, b.rtd[i]))
  }

  function AiRow(b: Body, c: AiChannel): seq<Value>
    requires b.AiBody?
  {
    [c.kind, c.range, b.integTime, c.smooth,
     c.overflowAlarm, c.underflowAlarm, c.openWireAlarm, b.powerAlarm]
  }

  function AiRows(b: Body): seq<seq<Value>>
    requires b.AiBody?
  {
    seq(|b.ai|, i requires 0 <= i < |b.ai| => AiRow(b, b.ai[i]))
  }

  /** Python's int.to_bytes(k, 'big'). */
  function IntToBytes(v: Value, k: nat): Result<Value> {
    match AsInt(v)
    case None => Err(AttributeError)
    case Some(n) => if 0 <= n < Pow2(8 * k) then Ok(Raw(ToBE(n, k))) else Err(OverflowError)
  }

  function MeterModuleRow(m: MeterModule): (row: seq<Value>)
    ensures |row| == 9
  {
    [m.conType, m.range, m.meterGate, m.periodMeters, m.lineFreq, m.lineVolTol,
     m.minMaxCal, m.diagLineVol, m.dataVariant]
  }

  function MeterValues(c: MeterChannel, tolTime: Value, primary: Value, vtSecond: Value, vtPrim: Value): seq<Value> {
    [c.diagOverVol, c.diagUnderVol, c.diagLlVol, c.diagOverCal, c.diagOverCur,
     c.overCurTolVal, tolTime, primary, c.reCurDir, c.actHourMeter,
     c.ctSecondCur, c.enGateCirHourMeter, c.llCurMeasure, vtSecond, vtPrim]
  }

  function MeterRow(c: MeterChannel): Result<seq<Value>> {
    var tolTime :- IntToBytes(c.overCurTolTime, 2);
    var primary :- IntToBytes(c.ctPrimaryCur, 4);
    var vtSecond :- IntToBytes(c.vtSecondVol, 2);
    var vtPrim :- IntToBytes(c.vtPrimVol, 4);
    Ok(MeterValues(c, tolTime, primary, vtSecond, vtPrim))
  }

  function MeterRows(cs: seq<MeterChannel>): (r: Result<seq<seq<Value>>>)
    ensures r.Ok? ==> |r.value| == |cs|
  {
    if cs == [] then Ok([])
    else
      var init :- MeterRows(cs[..|cs| - 1]);
      var last :- MeterRow(cs[|cs| - 1]);
      Ok(init + [last])
  }

  /** The fields the schema requires of a slot with a module of this kind. */
  predicate WellShaped(k: Kind, b: Body) {
    match k
    case Sm1223(n) => b.InputsOutputs? && 4 * |b.delays| == n && n <= 16
    case Rtd(n) => b.RtdBody? && |b.rtd| == n
    case Ai(n) => b.AiBody? && |b.ai| == n
    case Meter => b.MeterBody? && |b.phases| == 3
    case Sm1221 => b.Inputs? && |b.delays| == 2
    case SensDi => b.Plain?
    case NoModule => b.Plain?
  }

  /** The list handed to bitstruct.pack. */
  function Parameters(k: Kind, b: Body): Result<seq<Value>>
    requires WellShaped(k, b)
  {
    match k
    case Sm1223(n) =>
      if forall i :: 0 <= i < n ==> i in b.substitute
      then Ok([Num(0x02)] + Concat(DiRows(b.delays, n)) + ([Num(0x02)] + Concat(DqRows(b, n))))
      else Err(KeyError)
    case Rtd(n) => Ok([Num(0x1A)] + Concat(RtdRows(b)))
    case Ai(n) => Ok([Num(0x1A)] + Concat(AiRows(b)))
    case Meter =>
      var rows :- MeterRows(b.phases);
      Ok([b.meter.moduleVersion] + [Num(0x51), Num(0x02), Num(0x01), Num(0x08)]
         + MeterModuleRow(b.meter) + [Num(0x03), Num(0x14)] + Concat(rows))
    case Sm1221 => Ok([Num(0x02)] + Concat(DiRows(b.delays, 8)))
    case _ => Ok([])
  }

  function Serialize(k: Kind, b: Body): Result<Bytes>
    requires WellShaped(k, b)
  {
    match k
    case SensDi => Ok([0, 0x02] + seq(12, _ => 0))
    case NoModule => Ok([])
    case _ =>
      var parameters :- Parameters(k, b);
      Pack(FormatOf(k), parameters)
  }

  // ---------- reading a record back ----------

  function ReadRtd(v: seq<Value>): RtdChannel
    requires |v| == 10
  {
    RtdChannel(v[0], v[1], v[2], v[4], v[5], v[6], v[7], v[8])
  }

  function ReadAi(v: seq<Value>): AiChannel
    requires |v| == 8
  {
    AiChannel(v[0], v[1], v[3], v[4], v[5], v[6])
  }

  function BytesToInt(v: Value): Value {
    if v.Raw? then Num(FromBE(v.bytes)) else v
  }

  function ReadMeterModule(version: Value, v: seq<Value>): MeterModule
    requires |v| == 9
  {
    MeterModule(version, v[0], v[1], v[2], v[3], v[4], v[5], v[6], v[7], v[8])
  }

  function ReadMeter(v: seq<Value>): MeterChannel
    requires |v| == 15
  {
    MeterChannel(v[0], v[1], v[2], v[3], v[4], v[5], BytesToInt(v[6]), BytesToInt(v[7]), v[8], v[9],
                 v[10], v[11], v[12], BytesToInt(v[13]), BytesToInt(v[14]))
  }

  /** Number of values the format of k takes. */
  function ArityOf(k: Kind): nat {
    match k
    case Sm1223(n) => 2 + 3 * n
    case Rtd(n) => 1 + 10 * n
    case Ai(n) => 1 + 8 * n
    case Meter => 5 + 9 + 2 + 45
    case Sm1221 => 9
    case _ => 0
  }

  /** The assignments the generated unpack statement makes: module-wide parameters come from
      channel 0, a delay time from the first channel of its group. */
  function ReadBack(k: Kind, v: seq<Value>): Body
    requires KnownKind(k) && |v| == ArityOf(k)
  {
    match k
    case Sm1223(n) => ReadDigital(Chunks(v[1..n + 1], n, 1), Chunks(v[n + 2..], n, 2))
    case Rtd(n) => ReadRtdRows(Chunks(v[1..], n, 10))
    case Ai(n) => ReadAiRows(Chunks(v[1..], n, 8))
    case Meter => ReadMeterRows(v[0], v[5..14], Chunks(v[16..], 3, 15))
    case Sm1221 => Inputs(ReadDelays(Chunks(v[1..], 8, 1)))
    case _ => Plain
  }

  function ReadDelays(di: seq<seq<Value>>): seq<Value>
    requires forall i :: 0 <= i < |di| ==> |di[i]| == 1
  {
    seq(|di| / 4, g requires 0 <= g < |di| / 4 => di[4 * g][0])
  }

  function ReadDigital(di: seq<seq<Value>>, dq: seq<seq<Value>>): Body
    requires |dq| > 0
    requires forall i :: 0 <= i < |di| ==> |di[i]| == 1
    requires forall i :: 0 <= i < |dq| ==> |dq[i]| == 2
  {
    InputsOutputs(ReadDelays(di), dq[0][1], map i: nat | 0 <= i < |dq| :: dq[i][0])
  }

  function ReadRtdRows(rows: seq<seq<Value>>): Body
    requires |rows| > 0 && forall i :: 0 <= i < |rows| ==> |rows[i]| == 10
  {
    RtdBody(rows[0][3], rows[0][9], seq(|rows|, i requires 0 <= i < |rows| => ReadRtd(rows[i])))
  }

  function ReadAiRows(rows: seq<seq<Value>>): Body
    requires |rows| > 0 && forall i :: 0 <= i < |rows| ==> |rows[i]| == 8
  {
    AiBody(rows[0][2], rows[0][7], seq(|rows|, i requires 0 <= i < |rows| => ReadAi(rows[i])))
  }

  function ReadMeterRows(version: Value, row: seq<Value>, rows: seq<seq<Value>>): Body
    requires |row| == 9 && forall i :: 0 <= i < |rows| ==> |rows[i]| == 15
  {
    MeterBody(ReadMeterModule(version, row), seq(|rows|, i requires 0 <= i < |rows| => ReadMeter(rows[i])))
  }

  function Deserialize(k: Kind, blob: Bytes): Result<Body>
    requires KnownKind(k)
  {
    match k
    case SensDi => Ok(Plain)
    case NoModule => Ok(Plain)
    case _ =>
      var v :- Unpack(FormatOf(k), blob);
      if |v| == ArityOf(k) then Ok(ReadBack(k, v)) else Err(ValueError)
  }

  /** The description a deserializer writes. */
  function Describe(k: Kind): string {
    match k
    case Sm1223(_) => "SM 1223 DI8 x 120VAC / DQ8 x relay"
    case Rtd(n) => if n == 4 then "Analog input module AI4 x RTD" else "Analog input module AI8 x RTD"
    case Ai(n) => if n == 4 then "Analog input module AI4 x 13 bits" else "Analog input module AI8 x 13 bits"
    case Meter => "SM1238 Energy Meter 480VAC"
    case SensDi => "SM SENS DI"
    case Sm1221 => "SM 1221 DI8 x 24VDC"
    case NoModule => "No module for this slot"
  }
}
