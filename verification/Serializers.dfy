/** The serialize methods as the program runs them: parameters are appended channel by channel
    in loops. Each is proved to compute Modules.Serialize. */
module Serializers {
  import opened Common
  import opened Bits
  import opened Modules

  /** One delay time per input channel, behind the head of the record. */
  method AppendDelays(tag: Value, delays: seq<Value>, chNum: nat) returns (parameters: seq<Value>)
    requires chNum == 4 * |delays| && chNum <= 16
    ensures parameters == [tag] + Concat(DiRows(delays, chNum))
  {
    hide Concat;
    ghost var rows := DiRows(delays, chNum);
    NoRows<Value>();
    parameters := [tag];
    for i := 0 to chNum
      invariant parameters == [tag] + Concat(rows[..i])
    {
      NextRow(rows, i);
      if i < 4 {
        parameters := parameters + [delays[0]];
      } else if i < 8 {
        parameters := parameters + [delays[1]];
      } else if i < 12 {
        parameters := parameters + [delays[2]];
      } else {
        parameters := parameters + [delays[3]];
      }
    }
    assert rows[..chNum] == rows;
  }

  /** Substitute value and common behaviour per output channel; a missing channel is a KeyError. */
  method AppendOutputs(tag: Value, config: Body, chNum: nat) returns (r: Result<seq<Value>>)
    requires config.InputsOutputs?
    ensures r.Ok? <==> forall i :: 0 <= i < chNum ==> i in config.substitute
    ensures r.Ok? ==> r.value == [tag] + Concat(DqRows(config, chNum))
    ensures r.Err? ==> r.error == KeyError
  {
    hide Concat;
    NoRows<Value>();
    var parameters := [tag];
    for i := 0 to chNum
      invariant forall j: nat :: j < i ==> j in config.substitute
      invariant parameters == [tag] + Concat(DqRows(config, i))
    {
      if i !in config.substitute {
        return Err(KeyError);
      }
      ConcatSnoc(DqRows(config, i), DqRow(config.substitute[i], config.behaviorWithOD));
      assert DqRows(config, i + 1) == DqRows(config, i) + [DqRow(config.substitute[i], config.behaviorWithOD)];
      parameters := parameters + [config.substitute[i]];
      parameters := parameters + [config.behaviorWithOD];
    }
    r := Ok(parameters);
  }

  lemma NoRows<T>()
    ensures Concat<T>([]) == []
  {
  }

  lemma NextRow<T>(rows: seq<seq<T>>, i: nat)
    requires i < |rows|
    ensures Concat(rows[..i + 1]) == Concat(rows[..i]) + rows[i]
  {
    ConcatSnoc(rows[..i], rows[i]);
    assert rows[..i] + [rows[i]] == rows[..i + 1];
  }

  method SerializeDigital(chNum: nat, config: Body) returns (r: Result<Bytes>)
    requires KnownKind(Sm1223(chNum)) && WellShaped(Sm1223(chNum), config)
    ensures r == Serialize(Sm1223(chNum), config)
  {
    hide Concat, Pack, FormatOf, DiRows, DqRows;
    var inputs := AppendDelays(Num(0x02), config.delays, chNum);
    var outputs := AppendOutputs(Num(0x02), config, chNum);
    if outputs.Err? {
      return Err(outputs.error);
    }
    r := Pack(FormatOf(Sm1223(chNum)), inputs + outputs.value);
  }

  method SerializeRtd(chNum: nat, config: Body) returns (r: Result<Bytes>)
    requires KnownKind(Rtd(chNum)) && WellShaped(Rtd(chNum), config)
    ensures r == Serialize(Rtd(chNum), config)
  {
    hide Concat, Pack, FormatOf;
    ghost var rows := RtdRows(config);
    NoRows<Value>();
    var parameters := [Num(0x1A)];
    for i := 0 to chNum
      invariant parameters == [Num(0x1A)] + Concat(rows[..i])
    {
      NextRow(rows, i);
      var ch := config.rtd[i];
      parameters := parameters
        + [ch.kind, ch.range, ch.temperCoeff, config.integTime, ch.smooth, ch.temperUnit,
           ch.overflowAlarm, ch.underflowAlarm, ch.openWireAlarm, config.powerAlarm];
    }
    assert rows[..chNum] == rows;
    r := Pack(FormatOf(Rtd(chNum)), parameters);
  }

  method SerializeAi(chNum: nat, config: Body) returns (r: Result<Bytes>)
    requires KnownKind(Ai(chNum)) && WellShaped(Ai(chNum), config)
    ensures r == Serialize(Ai(chNum), config)
  {
    hide Concat, Pack, FormatOf;
    ghost var rows := AiRows(config);
    NoRows<Value>();
    var parameters := [Num(0x1A)];
    for i := 0 to chNum
      invariant parameters == [Num(0x1A)] + Concat(rows[..i])
    {
      NextRow(rows, i);
      var ch := config.ai[i];
      parameters := parameters
        + [ch.kind, ch.range, config.integTime, ch.smooth,
           ch.overflowAlarm, ch.underflowAlarm, ch.openWireAlarm, config.powerAlarm];
    }
    assert rows[..chNum] == rows;
    r := Pack(FormatOf(Ai(chNum)), parameters);
  }

  /** Appends the channels' values; the first number that does not fit its bytes is an error. */
  method AppendMeterChannels(front: seq<Value>, cs: seq<MeterChannel>) returns (r: Result<seq<Value>>)
    ensures MeterRows(cs).Ok? ==> r == Ok(front + Concat(MeterRows(cs).value))
    ensures MeterRows(cs).Err? ==> r == Err(MeterRows(cs).error)
  {
    hide Concat, MeterRow;
    NoRows<Value>();
    var parameters := front;
    for i := 0 to |cs|
      invariant MeterRows(cs[..i]).Ok?
      invariant parameters == front + Concat(MeterRows(cs[..i]).value)
    {
      assert cs[..i + 1][..i] == cs[..i];
      var row := MeterRow(cs[i]);
      if row.Err? {
        MeterRowsStop(cs, i + 1);
        return Err(row.error);
      }
      ConcatSnoc(MeterRows(cs[..i]).value, row.value);
      parameters := parameters + row.value;
    }
    assert cs[..|cs|] == cs;
    r := Ok(parameters);
  }

  method SerializeMeter(config: Body) returns (r: Result<Bytes>)
    requires WellShaped(Meter, config)
    ensures r == Serialize(Meter, config)
  {
    hide Concat, Pack, FormatOf, MeterRows, MeterModuleRow;
    var parameters := [config.meter.moduleVersion] + [Num(0x51), Num(0x02), Num(0x01), Num(0x08)];
    parameters := parameters + MeterModuleRow(config.meter);
    parameters := parameters + [Num(0x03), Num(0x14)];
    var all := AppendMeterChannels(parameters, config.phases);
    if all.Err? {
      return Err(all.error);
    }
    r := Pack(FormatOf(Meter), all.value);
  }

  /** The first channel whose numbers do not fit stops the serialization with its error. */
  lemma {:induction false} MeterRowsStop(cs: seq<MeterChannel>, i: nat)
    requires i <= |cs| && MeterRows(cs[..i]).Err?
    ensures MeterRows(cs) == Err(MeterRows(cs[..i]).error)
  {
    if i < |cs| {
      assert cs[..|cs| - 1][..i] == cs[..i];
      MeterRowsStop(cs[..|cs| - 1], i);
    } else {
      assert cs[..i] == cs;
    }
  }

  method SerializeInputs(config: Body) returns (r: Result<Bytes>)
    requires WellShaped(Sm1221, config)
    ensures r == Serialize(Sm1221, config)
  {
    hide Concat, Pack, FormatOf, DiRows;
    var parameters := AppendDelays(Num(0x02), config.delays, 8);
    r := Pack(FormatOf(Sm1221), parameters);
  }

  /** SM SENS DI writes its tag into a cleared buffer. */
  method SerializeSensDi() returns (r: Bytes)
    ensures Serialize(SensDi, Plain) == Ok(r)
  {
    var blob := new byte[14](_ => 0);
    blob[1] := 0x02;
    r := blob[..];
    assert r == [0, 0x02] + seq(12, _ => 0);
  }

  /** serialize of the serializer the factory produces. */
  method SerializeModule(k: Kind, config: Body) returns (r: Result<Bytes>)
    requires KnownKind(k) && WellShaped(k, config)
    ensures r == Serialize(k, config)
  {
    match k {
      case Sm1223(n) => r := SerializeDigital(n, config);
      case Rtd(n) => r := SerializeRtd(n, config);
      case Ai(n) => r := SerializeAi(n, config);
      case Meter => r := SerializeMeter(config);
      case Sm1221 => r := SerializeInputs(config);
      case SensDi =>
        var blob := SerializeSensDi();
        r := Ok(blob);
      case NoModule => r := Ok([]);
    }
  }
}
