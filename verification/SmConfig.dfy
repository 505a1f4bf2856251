/** Export and import of the whole configuration: a slot of the page against a slot of the device
    configuration, chosen by article number, and the loops over the slots. */
module SmConfig {
  import opened Common
  import opened Bits
  import opened Modules
  import opened ModuleLaws
  import opened EioConfig
  import opened Schema
  import opened TextTables
  import D = DigitalPage
  import R = RtdPage
  import A = AiPage
  import M = MeterPage

  /** A slot of the page. The page tells slots apart by article number; 'None' is NoneSlot. */
  datatype UiSlot =
    | NoneSlot
    | SensDiSlot
    | DigitalSlot(digital: D.Page)
    | InputSlot(input: D.InputPage)
    | RtdSlot(rtd: R.Page)
    | AiSlot(ai: A.Page)
    | MeterSlot(meter: M.Page)

  /** The article number goes with the entries a slot has. */
  predicate Shaped(u: UiSlot) {
    match u
    case DigitalSlot(p) => D.Sm1223Number(p.mlfb) && D.PageShaped(p)
    case InputSlot(p) => p.mlfb == SM1221 && |p.delays| == 2
    case RtdSlot(p) => R.RtdNumber(p.mlfb) && |p.channels| == R.ChannelNums(p.mlfb)
    case AiSlot(p) => A.AiNumber(p.mlfb) && |p.channels| == A.ChannelNums(p.mlfb)
    case MeterSlot(p) => p.mlfb == SM1238 && |p.channels| == 3
    case _ => true
  }

  // ---------- export ----------

  function ExportSlot(u: UiSlot): SlotConfig
    requires Shaped(u)
  {
    match u
    case NoneSlot => SlotConfig("No module for this slot", NO_MODULE, Plain)
    case SensDiSlot => SlotConfig("SM SENS DI", SM_SENS_DI, Plain)
    case DigitalSlot(p) => D.ToDevice(p)
    case InputSlot(p) => D.InputToDevice(p)
    case RtdSlot(p) => R.ToDevice(p)
    case AiSlot(p) => A.ToDevice(p)
    case MeterSlot(p) => M.ToDevice(p)
  }

  predicate AllShaped(us: seq<UiSlot>) {
    forall i :: 0 <= i < |us| ==> Shaped(us[i])
  }

  function ExportAll(us: seq<UiSlot>): (slots: seq<SlotConfig>)
    requires AllShaped(us)
    ensures |slots| == |us|
  {
    seq(|us|, i requires 0 <= i < |us| => ExportSlot(us[i]))
  }

  function Export(us: seq<UiSlot>): Config
    requires AllShaped(us)
  {
    Numbered(ExportAll(us))
  }

  method ExportYamlConfig(us: seq<UiSlot>) returns (config: Config)
    requires AllShaped(us)
    ensures config == Export(us)
  {
    hide ExportSlot, Shaped;
    config := map[];
    for i := 0 to |us|
      invariant config == Numbered(ExportAll(us)[..i])
    {
      var slot := ConvertToDevice(us[i]);
      config := config[i + 1 := slot];
      assert ExportAll(us)[..i + 1][..i] == ExportAll(us)[..i];
    }
    assert ExportAll(us)[..|us|] == ExportAll(us);
  }

  method ConvertToDevice(u: UiSlot) returns (slot: SlotConfig)
    requires Shaped(u)
    ensures slot == ExportSlot(u)
  {
    match u {
      case NoneSlot => slot := SlotConfig("No module for this slot", NO_MODULE, Plain);
      case SensDiSlot => slot := SlotConfig("SM SENS DI", SM_SENS_DI, Plain);
      case DigitalSlot(p) => slot := D.ConvertToDeviceFormat(p);
      case InputSlot(p) => slot := D.InputToDevice(p);
      case RtdSlot(p) => slot := R.ConvertToDeviceFormat(p);
      case AiSlot(p) => slot := A.ConvertToDeviceFormat(p);
      case MeterSlot(p) => slot := M.ConvertToDeviceFormat(p);
    }
  }

  // ---------- import ----------

  /** The kind of slot an article number stands for, where only the exact number will do. */
  function PageKind(mlfb: string): Kind {
    if mlfb in NUMBERS then Produce(mlfb) else Kind.NoModule
  }

  predicate DeviceShaped(slot: SlotConfig) {
    WellShaped(PageKind(slot.mlfb), slot.body) || PageKind(slot.mlfb).NoModule?
  }

  function ImportSlot(slot: SlotConfig): Result<UiSlot>
    requires DeviceShaped(slot)
  {
    ShapesMeet(slot);
    match PageKind(slot.mlfb)
    case Sm1223(_) =>
      var p :- D.ToUi(slot);
      Ok(DigitalSlot(p))
    case Rtd(_) => Ok(RtdSlot(R.ToUi(slot)))
    case Ai(_) => Ok(AiSlot(A.ToUi(slot)))
    case Meter => Ok(MeterSlot(M.ToUi(slot)))
    case SensDi => Ok(SensDiSlot)
    case Sm1221 => Ok(InputSlot(D.InputToUi(slot)))
    case NoModule => Ok(NoneSlot)
  }

  lemma NumbersKeep(mlfb: string)
    requires mlfb in NUMBERS
    ensures PageKind(mlfb).Sm1223? ==> D.Sm1223Number(mlfb) && PageKind(mlfb) == Sm1223(D.Channels(mlfb))
    ensures PageKind(mlfb).Rtd? ==> R.RtdNumber(mlfb) && PageKind(mlfb) == Rtd(R.ChannelNums(mlfb))
    ensures PageKind(mlfb).Ai? ==> A.AiNumber(mlfb) && PageKind(mlfb) == Ai(A.ChannelNums(mlfb))
    ensures PageKind(mlfb).Meter? ==> mlfb == SM1238
    ensures PageKind(mlfb).Sm1221? ==> mlfb == SM1221
    ensures PageKind(mlfb).SensDi? ==> mlfb == SM_SENS_DI
    ensures PageKind(mlfb).NoModule? ==> mlfb == NO_MODULE
    ensures PageKind(mlfb) == Produce(mlfb)
  {
    hide RStrip;
    ListedNumbers(mlfb);
  }

  lemma ShapesMeet(slot: SlotConfig)
    requires DeviceShaped(slot)
    ensures PageKind(slot.mlfb).Sm1223? ==> D.DeviceShaped(slot)
    ensures PageKind(slot.mlfb).Rtd? ==> slot.body.RtdBody? && |slot.body.rtd| == R.ChannelNums(slot.mlfb)
    ensures PageKind(slot.mlfb).Ai? ==> slot.body.AiBody? && |slot.body.ai| == A.ChannelNums(slot.mlfb)
    ensures PageKind(slot.mlfb).Meter? ==> M.DeviceShaped(slot)
    ensures PageKind(slot.mlfb).Sm1221? ==> slot.body.Inputs? && |slot.body.delays| == 2
  {
    hide RStrip, NUMBERS;
    if slot.mlfb in NUMBERS {
      NumbersKeep(slot.mlfb);
    }
  }

  predicate AllDeviceShaped(config: Config) {
    forall i :: i in config ==> DeviceShaped(config[i])
  }

  /** The pages of slot1 .. slot{n}. */
  function Import(config: Config, n: nat): (r: Result<seq<UiSlot>>)
    requires AllDeviceShaped(config)
    ensures r.Ok? ==> |r.value| == n
  {
    if n == 0 then Ok([])
    else
      var init :- Import(config, n - 1);
      if n !in config then Err(TypeError)
      else
        var u :- ImportSlot(config[n]);
        Ok(init + [u])
  }

  method ImportYamlConfig(config: Config) returns (r: Result<seq<UiSlot>>)
    requires AllDeviceShaped(config)
    ensures r == Import(config, SLOTS)
  {
    hide ImportSlot, DeviceShaped;
    var us: seq<UiSlot> := seq(SLOTS, _ => NoneSlot);
    for i := 1 to SLOTS + 1
      invariant |us| == SLOTS && Import(config, i - 1) == Ok(us[..i - 1])
    {
      if i !in config {
        FirstFailure(config, i, SLOTS);
        return Err(TypeError);
      }
      var u := ConvertToUi(config[i]);
      if u.Err? {
        FirstFailure(config, i, SLOTS);
        return Err(u.error);
      }
      us := us[i - 1 := u.value];
      assert us[..i] == us[..i - 1] + [u.value];
    }
    assert us[..SLOTS] == us;
    r := Ok(us);
  }

  lemma {:induction false} FirstFailure(config: Config, i: nat, n: nat)
    requires AllDeviceShaped(config) && 1 <= i <= n && Import(config, i).Err?
    ensures Import(config, n) == Err(Import(config, i).error)
  {
    hide ImportSlot, DeviceShaped;
    if i < n {
      FirstFailure(config, i, n - 1);
    }
  }

  method ConvertToUi(slot: SlotConfig) returns (r: Result<UiSlot>)
    requires DeviceShaped(slot)
    ensures r == ImportSlot(slot)
  {
    hide PageKind, WellShaped;
    ShapesMeet(slot);
    match PageKind(slot.mlfb) {
      case Sm1223(_) =>
        var p := D.ConvertToUiFormat(slot);
        if p.Err? {
          return Err(p.error);
        }
        r := Ok(DigitalSlot(p.value));
      case Rtd(_) =>
        var p := R.ConvertToUiFormat(slot);
        r := Ok(RtdSlot(p));
      case Ai(_) =>
        var p := A.ConvertToUiFormat(slot);
        r := Ok(AiSlot(p));
      case Meter =>
        var p := M.ConvertToUiFormat(slot);
        r := Ok(MeterSlot(p));
      case SensDi => r := Ok(SensDiSlot);
      case Sm1221 => r := Ok(InputSlot(D.InputToUi(slot)));
      case NoModule => r := Ok(NoneSlot);
    }
  }

  lemma {:induction false} ImportAt(config: Config, n: nat, us: seq<UiSlot>)
    requires AllDeviceShaped(config) && |us| == n
    requires forall i :: 1 <= i <= n ==> i in config && ImportSlot(config[i]) == Ok(us[i - 1])
    ensures Import(config, n) == Ok(us)
  {
    hide ImportSlot, DeviceShaped;
    if n > 0 {
      ImportAt(config, n - 1, us[..n - 1]);
      assert us[..n - 1] + [us[n - 1]] == us;
    }
  }

  // ---------- listed slots ----------

  /** Every output channel of an SM1223 is configured and every number has a label. */
  ghost predicate Labelled(k: Kind, b: Body)
    requires WellShaped(k, b)
  {
    match k
    case Sm1223(n) => HasChannels(b.substitute, n) && D.BodyKept(b)
    case Rtd(_) => Kept(b.integTime, R.QUARTERS) && forall c :: c in b.rtd ==> R.ChannelKept(c)
    case Ai(_) => Kept(b.integTime, A.QUARTERS) && forall c :: c in b.ai ==> A.ChannelKept(c)
    case Meter => M.ModuleKept(b.meter) && forall c :: c in b.phases ==> Kept(c.ctSecondCur, M.CTS)
    case Sm1221 => forall d :: d in b.delays ==> Kept(d, DELAYS)
    case _ => true
  }

  ghost predicate ListedSlot(slot: SlotConfig) {
    slot.mlfb in NUMBERS && WellShaped(PageKind(slot.mlfb), slot.body) && Labelled(PageKind(slot.mlfb), slot.body)
  }

  lemma DigitalReturns(slot: SlotConfig)
    requires D.DeviceShaped(slot) && D.Sm1223Number(slot.mlfb)
    requires HasChannels(slot.body.substitute, D.Channels(slot.mlfb)) && D.BodyKept(slot.body)
    ensures D.ToUi(slot).Ok? && D.PageShaped(D.ToUi(slot).value) && D.ToUi(slot).value.mlfb == slot.mlfb
    ensures D.ToDevice(D.ToUi(slot).value) == slot.(description := D.Description(slot.mlfb))
  {
    hide D.ToUi, D.ToDevice, D.BodyKept, D.Description;
    D.DeviceRoundTrip(slot);
    D.ImportAccepts(slot);
  }

  lemma RtdReturns(slot: SlotConfig)
    requires slot.body.RtdBody? && |slot.body.rtd| == R.ChannelNums(slot.mlfb)
    requires Kept(slot.body.integTime, R.QUARTERS) && forall c :: c in slot.body.rtd ==> R.ChannelKept(c)
    ensures R.ToUi(slot).mlfb == slot.mlfb && |R.ToUi(slot).channels| == |slot.body.rtd|
    ensures R.ToDevice(R.ToUi(slot)).mlfb == slot.mlfb && R.ToDevice(R.ToUi(slot)).body == slot.body
  {
    hide UiToYaml, YamlToUi, R.RTD_TABLE, R.ChannelKept, R.ToUiChannel, R.ToDeviceChannel, Kept;
    R.DeviceRoundTrip(slot);
  }

  lemma AiReturns(slot: SlotConfig)
    requires slot.body.AiBody? && |slot.body.ai| == A.ChannelNums(slot.mlfb)
    requires Kept(slot.body.integTime, A.QUARTERS) && forall c :: c in slot.body.ai ==> A.ChannelKept(c)
    ensures A.ToUi(slot).mlfb == slot.mlfb && |A.ToUi(slot).channels| == |slot.body.ai|
    ensures A.ToDevice(A.ToUi(slot)).mlfb == slot.mlfb && A.ToDevice(A.ToUi(slot)).body == slot.body
  {
    hide UiToYaml, YamlToUi, A.AI_TABLE, A.ChannelKept, A.ToUiChannel, A.ToDeviceChannel, Kept;
    A.DeviceRoundTrip(slot);
  }

  lemma MeterReturns(slot: SlotConfig)
    requires M.DeviceShaped(slot)
    requires M.ModuleKept(slot.body.meter) && forall c :: c in slot.body.phases ==> Kept(c.ctSecondCur, M.CTS)
    ensures M.ToUi(slot).mlfb == SM1238 && |M.ToUi(slot).channels| == 3
    ensures M.ToDevice(M.ToUi(slot)).mlfb == SM1238 && M.ToDevice(M.ToUi(slot)).body == slot.body
  {
    hide UiToYaml, YamlToUi, M.METER_TABLE, M.ModuleKept, M.ToUiChannel, M.ToDeviceChannel, Kept;
    M.DeviceRoundTrip(slot);
  }

  lemma InputReturns(slot: SlotConfig)
    requires slot.mlfb == SM1221 && slot.body.Inputs? && |slot.body.delays| == 2
    requires forall d :: d in slot.body.delays ==> Kept(d, DELAYS)
    ensures D.InputToUi(slot).mlfb == SM1221 && |D.InputToUi(slot).delays| == 2
    ensures D.InputToDevice(D.InputToUi(slot)).mlfb == SM1221 && D.InputToDevice(D.InputToUi(slot)).body == slot.body
  {
    hide UiToYaml, YamlToUi, D.SM1221_TABLE, Kept;
    D.InputRoundTrip(slot);
  }

  /** A listed slot is imported, and exporting it gives its number and parameters back. */
  lemma ListedSlotReturns(slot: SlotConfig)
    requires ListedSlot(slot)
    ensures DeviceShaped(slot) && ImportSlot(slot).Ok? && Shaped(ImportSlot(slot).value)
    ensures ExportSlot(ImportSlot(slot).value).mlfb == slot.mlfb && ExportSlot(ImportSlot(slot).value).body == slot.body
  {
    hide PageKind, NUMBERS, D.ToUi, D.ToDevice, D.InputToUi, D.InputToDevice, M.ToUi, M.ToDevice, D.BodyKept,
         M.ModuleKept, R.ChannelKept, A.ChannelKept, Kept, HasChannels, R.ToDevice, A.ToDevice, R.ToUi, A.ToUi;
    NumbersKeep(slot.mlfb);
    ShapesMeet(slot);
    match PageKind(slot.mlfb)
    case Sm1223(_) => DigitalReturns(slot);
    case Rtd(_) => RtdReturns(slot);
    case Ai(_) => AiReturns(slot);
    case Meter => MeterReturns(slot);
    case Sm1221 => InputReturns(slot);
    case _ => PlainReturns(slot);
  }

  lemma PlainReturns(slot: SlotConfig)
    requires slot.mlfb in {SM_SENS_DI, NO_MODULE} && WellShaped(PageKind(slot.mlfb), slot.body)
    ensures slot.body == Plain && ImportSlot(slot) == Ok(if slot.mlfb == SM_SENS_DI then SensDiSlot else NoneSlot)
    ensures PageKind(slot.mlfb) == if slot.mlfb == SM_SENS_DI then Kind.SensDi else Kind.NoModule
  {
    hide D.ToUi, R.ToUi, A.ToUi, M.ToUi, D.InputToUi;
    assert RStrip(SM_SENS_DI) == SM_SENS_DI && RStrip(NO_MODULE) == NO_MODULE;
  }

  // ---------- valid slots are listed ----------

  lemma RtdValidKept(c: RtdChannel)
    requires RtdChannelValid(c)
    ensures R.ChannelKept(c)
  {
    hide CoeffFits;
  }

  lemma AiValidKept(c: AiChannel)
    requires AiChannelValid(c)
    ensures A.ChannelKept(c)
  {
  }

  lemma MeterValidKept(m: MeterModule)
    requires MeterModuleValid(m)
    ensures M.ModuleKept(m)
  {
  }

  /** What the schema accepts has labels, provided every output channel is configured. */
  lemma ValidIsListed(slot: SlotConfig)
    requires SlotValid(slot) && (Produce(slot.mlfb).Sm1223? ==> Writable(Produce(slot.mlfb), slot.body))
    ensures ListedSlot(slot)
  {
    hide NUMBERS, R.ChannelKept, A.ChannelKept, M.ModuleKept, RtdChannelValid, AiChannelValid, MeterModuleValid, RStrip;
    NumbersKeep(slot.mlfb);
    var k, b := PageKind(slot.mlfb), slot.body;
    match k
    case Rtd(_) =>
      forall c | c in b.rtd
        ensures R.ChannelKept(c)
      {
        RtdValidKept(c);
      }
    case Ai(_) =>
      forall c | c in b.ai
        ensures A.ChannelKept(c)
      {
        AiValidKept(c);
      }
    case Meter => MeterValidKept(b.meter);
    case _ =>
  }
}
