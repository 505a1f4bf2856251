/** The SM1238 energy meter page: its label tables, the translation between page and device, and
    the editor whose handlers keep dependent entries in step with the connection type. */
module MeterPage {
  import opened Common
  import opened Modules
  import opened TextTables
  import opened Schema

  // ---------- label tables ----------

  const VERSIONS: set<int> := {32, 112, 224, 225, 226, 227}
  const RANGES: set<int> := {1, 2, 3, 4, 5, 6, 7, 8, 9, 10, 11, 12}
  const FREQS: set<int> := {1, 2}
  const PERIODS: set<int> := {0, 1, 2, 3, 4, 5}
  const CTS: set<int> := {0, 2}
  const VARIANTS: set<int> :=
    {0xFE, 0xFD, 0xFC, 0xFB, 0xFA, 0xF9, 0xF8, 0xF7, 0xF6, 0xF5, 0xF0, 0xEF,
     0xE3, 0xE2, 0xE1, 0xE0, 0x9F, 0x9E, 0x9D, 0x9C, 0x9B, 0x9A}

  const VERSION_LIST: seq<int> := [32, 112, 224, 225, 226, 227]
  const CON_TYPE_LIST: seq<int> := [0x00, 0x0B, 0x0C, 0x0E, 0x10, 0x0F]
  const RANGE_LIST: seq<int> := [1, 2, 3, 4, 5, 6, 7, 8, 9, 10, 11, 12]
  const FREQ_LIST: seq<int> := [1, 2]
  const VARIANT_LIST: seq<int> :=
    [0xFE, 0xFD, 0xFC, 0xFB, 0xFA, 0xF9, 0xF8, 0xF7, 0xF6, 0xF5, 0xF0, 0xEF,
     0xE3, 0xE2, 0xE1, 0xE0, 0x9F, 0x9E, 0x9D, 0x9C, 0x9B, 0x9A]
  const PERIOD_LIST: seq<int> := [0, 1, 2, 3, 4, 5]
  const CT_LIST: seq<int> := [0, 2]

  const METER_TABLE: Table := [
    Item([Word(ModuleVersionName)], [Rule(ALL, Codes(ModVer, VERSION_LIST))]),
    Item([Word(ConTypeName)], [Rule(ALL, Codes(ConType, CON_TYPE_LIST))]),
    Item([Word(RangeName)], [Rule(ALL, Codes(Range, RANGE_LIST))]),
    Item([Word(LineFreqName)], [Rule(ALL, Codes(LineFreq, FREQ_LIST))]),
    Item([Word(DataVariantName)], [Rule(ALL, Codes(DataVariant, VARIANT_LIST))]),
    Item([Word(PeriodMetersName)], [Rule(ALL, Codes(PeriodMeters, PERIOD_LIST))]),
    Item([ChannelWord(2, CtSecondCurName)], [Rule(ALL, Codes(CtSndCur, CT_LIST))])]

  lemma Lists()
    ensures Members(VERSION_LIST) == VERSIONS && Members(CON_TYPE_LIST) == CON_TYPES
    ensures Members(FREQ_LIST) == FREQS && Members(PERIOD_LIST) == PERIODS && Members(CT_LIST) == CTS
  {
  }

  lemma RangeList()
    ensures Members(RANGE_LIST) == RANGES
  {
  }

  lemma VariantList()
    ensures Members(VARIANT_LIST) == VARIANTS
  {
  }

  lemma FirstItems()
    ensures OnlyItem(METER_TABLE, 0, 0, Whole(ModuleVersionName)) && OnlyItem(METER_TABLE, 1, 0, Whole(ConTypeName))
    ensures OnlyItem(METER_TABLE, 2, 0, Whole(RangeName))
  {
    hide Codes, VERSION_LIST, CON_TYPE_LIST, RANGE_LIST, FREQ_LIST, VARIANT_LIST, PERIOD_LIST, CT_LIST;
  }

  lemma LastItems(i: nat)
    requires i <= 2
    ensures OnlyItem(METER_TABLE, 3, 0, Whole(LineFreqName)) && OnlyItem(METER_TABLE, 4, 0, Whole(DataVariantName))
    ensures OnlyItem(METER_TABLE, 5, 0, Whole(PeriodMetersName))
    ensures OnlyItem(METER_TABLE, 6, 0, OfChannel(i, CtSecondCurName))
  {
    hide Codes, VERSION_LIST, CON_TYPE_LIST, RANGE_LIST, FREQ_LIST, VARIANT_LIST, PERIOD_LIST, CT_LIST;
  }

  lemma MeterTranslates(i: nat)
    requires i <= 2
    ensures Translates(METER_TABLE, Whole(ModuleVersionName), ALL, ModVer, VERSIONS)
    ensures Translates(METER_TABLE, Whole(ConTypeName), ALL, ConType, CON_TYPES)
    ensures Translates(METER_TABLE, Whole(RangeName), ALL, Range, RANGES)
    ensures Translates(METER_TABLE, Whole(LineFreqName), ALL, LineFreq, FREQS)
    ensures Translates(METER_TABLE, Whole(DataVariantName), ALL, DataVariant, VARIANTS)
    ensures Translates(METER_TABLE, Whole(PeriodMetersName), ALL, PeriodMeters, PERIODS)
    ensures Translates(METER_TABLE, OfChannel(i, CtSecondCurName), ALL, CtSndCur, CTS)
  {
    hide Translates, OnlyItem, Codes, Members, VERSION_LIST, CON_TYPE_LIST, RANGE_LIST, FREQ_LIST, VARIANT_LIST,
         PERIOD_LIST, CT_LIST;
    Lists();
    RangeList();
    VariantList();
    FirstItems();
    LastItems(i);
    KeyTranslates(METER_TABLE, 0, 0, Whole(ModuleVersionName), METER_TABLE[0].rules[0], ModVer, VERSION_LIST, VERSIONS);
    KeyTranslates(METER_TABLE, 1, 0, Whole(ConTypeName), METER_TABLE[1].rules[0], ConType, CON_TYPE_LIST, CON_TYPES);
    KeyTranslates(METER_TABLE, 2, 0, Whole(RangeName), METER_TABLE[2].rules[0], Range, RANGE_LIST, RANGES);
    KeyTranslates(METER_TABLE, 3, 0, Whole(LineFreqName), METER_TABLE[3].rules[0], LineFreq, FREQ_LIST, FREQS);
    KeyTranslates(METER_TABLE, 4, 0, Whole(DataVariantName), METER_TABLE[4].rules[0], DataVariant, VARIANT_LIST,
                  VARIANTS);
    KeyTranslates(METER_TABLE, 5, 0, Whole(PeriodMetersName), METER_TABLE[5].rules[0], PeriodMeters, PERIOD_LIST,
                  PERIODS);
    KeyTranslates(METER_TABLE, 6, 0, OfChannel(i, CtSecondCurName), METER_TABLE[6].rules[0], CtSndCur, CT_LIST, CTS);
  }

  // ---------- the page ----------

  datatype Channel = Channel(
    overCur: Value, overCal: Value, llVol: Value, underVol: Value, overVol: Value,
    tolVal: Value, tolTime: Value, ctPrimary: Value, enGate: Value, ctSelection: Selection, ctSecond: UiText,
    actHour: Value, reCurDir: Value, llCur: Value, vtSecond: Value, vtPrim: Value)

  datatype Page = Page(
    mlfb: string, version: UiText, conType: UiText, range: UiText, freq: UiText, period: UiText,
    gate: Value, minMax: Value, lineTol: Value, diagLine: Value,
    variantSelection: Selection, variant: UiText, channels: seq<Channel>)

  const OFF: UiText := Label(ConType, 0x00)
  const ONE_PHASE: UiText := Label(ConType, 0x0B)
  const BALANCED: UiText := Label(ConType, 0x0E)
  const TWO_PHASE: UiText := Label(ConType, 0x10)
  const SINGLES: UiText := Label(ConType, 0x0F)
  const THREE_PHASE: Selection := Selection(ConType, {0x00, 0x0C, 0x0E, 0x0F})
  const ALL_VARIANTS_OFFERED: Selection := Selection(DataVariant, VARIANTS)
  const BOTH_CTS: Selection := Selection(CtSndCur, CTS)
  const CT_0: UiText := Label(CtSndCur, 0)

  const CHANNEL_DEFAULT: Channel := Channel(
    Flag(false), Flag(false), Flag(false), Flag(false), Flag(false),
    Num(100), Num(40000), Num(1), Flag(false), BOTH_CTS, CT_0, Flag(false), Flag(false), Num(50), Num(230), Num(230))

  const PAGE_DEFAULT: Page := Page(
    SM1238, Label(ModVer, 112), Label(ConType, 0x0C), Label(Range, 0x0A), Label(LineFreq, 2), Label(PeriodMeters, 0),
    Flag(false), Flag(false), Num(10), Flag(false), ALL_VARIANTS_OFFERED, Label(DataVariant, 0xFE),
    [CHANNEL_DEFAULT, CHANNEL_DEFAULT, CHANNEL_DEFAULT])

  // ---------- the two translations ----------

  predicate DeviceShaped(slot: SlotConfig) {
    slot.body.MeterBody? && |slot.body.phases| == 3
  }

  function ToUiChannel(c: MeterChannel, i: nat): Channel {
    Channel(
      c.diagOverCur, c.diagOverCal, c.diagLlVol, c.diagUnderVol, c.diagOverVol,
      c.overCurTolVal, c.overCurTolTime, c.ctPrimaryCur, c.enGateCirHourMeter,
      BOTH_CTS, YamlToUi(METER_TABLE, OfChannel(i, CtSecondCurName), c.ctSecondCur, ALL),
      c.actHourMeter, c.reCurDir, c.llCurMeasure, c.vtSecondVol, c.vtPrimVol)
  }

  function ToUi(slot: SlotConfig): Page
    requires DeviceShaped(slot)
  {
    var m := slot.body.meter;
    Page(SM1238,
         YamlToUi(METER_TABLE, Whole(ModuleVersionName), m.moduleVersion, ALL),
         YamlToUi(METER_TABLE, Whole(ConTypeName), m.conType, ALL),
         YamlToUi(METER_TABLE, Whole(RangeName), m.range, ALL),
         YamlToUi(METER_TABLE, Whole(LineFreqName), m.lineFreq, ALL),
         YamlToUi(METER_TABLE, Whole(PeriodMetersName), m.periodMeters, ALL),
         m.meterGate, m.minMaxCal, m.lineVolTol, m.diagLineVol, ALL_VARIANTS_OFFERED,
         YamlToUi(METER_TABLE, Whole(DataVariantName), m.dataVariant, ALL),
         seq(3, i requires 0 <= i < 3 => ToUiChannel(slot.body.phases[i], i)))
  }

  method ConvertToUiFormat(slot: SlotConfig) returns (page: Page)
    requires DeviceShaped(slot)
    ensures page == ToUi(slot)
  {
    hide YamlToUi;
    var m := slot.body.meter;
    page := PAGE_DEFAULT.(
      version := YamlToUi(METER_TABLE, Whole(ModuleVersionName), m.moduleVersion, ALL),
      conType := YamlToUi(METER_TABLE, Whole(ConTypeName), m.conType, ALL),
      range := YamlToUi(METER_TABLE, Whole(RangeName), m.range, ALL),
      freq := YamlToUi(METER_TABLE, Whole(LineFreqName), m.lineFreq, ALL),
      period := YamlToUi(METER_TABLE, Whole(PeriodMetersName), m.periodMeters, ALL),
      gate := m.meterGate, minMax := m.minMaxCal, lineTol := m.lineVolTol, diagLine := m.diagLineVol,
      variant := YamlToUi(METER_TABLE, Whole(DataVariantName), m.dataVariant, ALL));
    ghost var head := page;
    for i := 0 to 3
      invariant page == head.(channels := page.channels) && |page.channels| == 3
      invariant forall j :: 0 <= j < i ==> page.channels[j] == ToUiChannel(slot.body.phases[j], j)
      invariant forall j :: i <= j < 3 ==> page.channels[j] == CHANNEL_DEFAULT
    {
      var c := slot.body.phases[i];
      page := page.(channels := page.channels[i := page.channels[i].(
        overCur := c.diagOverCur, overCal := c.diagOverCal, llVol := c.diagLlVol, underVol := c.diagUnderVol,
        overVol := c.diagOverVol, tolVal := c.overCurTolVal, tolTime := c.overCurTolTime, ctPrimary := c.ctPrimaryCur,
        enGate := c.enGateCirHourMeter,
        ctSecond := YamlToUi(METER_TABLE, OfChannel(i, CtSecondCurName), c.ctSecondCur, ALL),
        actHour := c.actHourMeter, reCurDir := c.reCurDir, llCur := c.llCurMeasure,
        vtSecond := c.vtSecondVol, vtPrim := c.vtPrimVol)]);
    }
    assert page.channels == ToUi(slot).channels;
  }

  function ToDeviceChannel(u: Channel, i: nat): MeterChannel {
    MeterChannel(
      u.overVol, u.underVol, u.llVol, u.overCal, u.overCur, u.tolVal, u.tolTime, u.ctPrimary, u.reCurDir, u.actHour,
      UiToYaml(METER_TABLE, OfChannel(i, CtSecondCurName), u.ctSecond, ALL), u.enGate, u.llCur, u.vtSecond, u.vtPrim)
  }

  function ToDevice(page: Page): SlotConfig
    requires |page.channels| == 3
  {
    SlotConfig("SM1238 Energy Meter 480VAC", page.mlfb,
               MeterBody(
                 MeterModule(
                   UiToYaml(METER_TABLE, Whole(ModuleVersionName), page.version, ALL),
                   UiToYaml(METER_TABLE, Whole(ConTypeName), page.conType, ALL),
                   UiToYaml(METER_TABLE, Whole(RangeName), page.range, ALL),
                   page.gate,
                   UiToYaml(METER_TABLE, Whole(PeriodMetersName), page.period, ALL),
                   UiToYaml(METER_TABLE, Whole(LineFreqName), page.freq, ALL),
                   page.lineTol, page.minMax, page.diagLine,
                   UiToYaml(METER_TABLE, Whole(DataVariantName), page.variant, ALL)),
                 seq(3, i requires 0 <= i < 3 => ToDeviceChannel(page.channels[i], i))))
  }

  method ConvertToDeviceFormat(page: Page) returns (slot: SlotConfig)
    requires |page.channels| == 3
    ensures slot == ToDevice(page)
  {
    hide UiToYaml;
    var meter := MeterModule(
      UiToYaml(METER_TABLE, Whole(ModuleVersionName), page.version, ALL),
      UiToYaml(METER_TABLE, Whole(ConTypeName), page.conType, ALL),
      UiToYaml(METER_TABLE, Whole(RangeName), page.range, ALL),
      page.gate,
      UiToYaml(METER_TABLE, Whole(PeriodMetersName), page.period, ALL),
      UiToYaml(METER_TABLE, Whole(LineFreqName), page.freq, ALL),
      page.lineTol, page.minMax, page.diagLine,
      UiToYaml(METER_TABLE, Whole(DataVariantName), page.variant, ALL));
    var phases: seq<MeterChannel> := [];
    for i := 0 to 3
      invariant |phases| == i
      invariant forall j :: 0 <= j < i ==> phases[j] == ToDeviceChannel(page.channels[j], j)
    {
      var u := page.channels[i];
      phases := phases + [MeterChannel(
                            u.overVol, u.underVol, u.llVol, u.overCal, u.overCur, u.tolVal, u.tolTime, u.ctPrimary,
                            u.reCurDir, u.actHour,
                            UiToYaml(METER_TABLE, OfChannel(i, CtSecondCurName), u.ctSecond, ALL),
                            u.enGate, u.llCur, u.vtSecond, u.vtPrim)];
    }
    assert phases == ToDevice(page).body.phases;
    slot := SlotConfig("SM1238 Energy Meter 480VAC", page.mlfb, MeterBody(meter, phases));
  }

  lemma DeviceIs(page: Page)
    requires |page.channels| == 3
    ensures ToDevice(page).body.meter == MeterModule(
              Read(page.version, ModVer, VERSIONS), Read(page.conType, ConType, CON_TYPES),
              Read(page.range, Range, RANGES),
              page.gate, Read(page.period, PeriodMeters, PERIODS), Read(page.freq, LineFreq, FREQS),
              page.lineTol, page.minMax, page.diagLine, Read(page.variant, DataVariant, VARIANTS))
    ensures forall i :: 0 <= i < 3 ==> ToDevice(page).body.phases[i] == PhaseOf(page.channels[i])
  {
    hide UiToYaml, METER_TABLE, Read;
    MeterTranslates(0);
    forall i | 0 <= i < 3
      ensures ToDeviceChannel(page.channels[i], i) == PhaseOf(page.channels[i])
    {
      MeterTranslates(i);
    }
  }

  function PhaseOf(u: Channel): MeterChannel {
    MeterChannel(
      u.overVol, u.underVol, u.llVol, u.overCal, u.overCur, u.tolVal, u.tolTime, u.ctPrimary, u.reCurDir, u.actHour,
      Read(u.ctSecond, CtSndCur, CTS), u.enGate, u.llCur, u.vtSecond, u.vtPrim)
  }

  function EntriesOf(c: MeterChannel): Channel {
    Channel(
      c.diagOverCur, c.diagOverCal, c.diagLlVol, c.diagUnderVol, c.diagOverVol,
      c.overCurTolVal, c.overCurTolTime, c.ctPrimaryCur, c.enGateCirHourMeter,
      BOTH_CTS, Show(c.ctSecondCur, CtSndCur, CTS),
      c.actHourMeter, c.reCurDir, c.llCurMeasure, c.vtSecondVol, c.vtPrimVol)
  }

  lemma UiIs(slot: SlotConfig)
    requires DeviceShaped(slot)
    ensures var m, page := slot.body.meter, ToUi(slot);
      && page.version == Show(m.moduleVersion, ModVer, VERSIONS) && page.conType == Show(m.conType, ConType, CON_TYPES)
      && page.range == Show(m.range, Range, RANGES) && page.freq == Show(m.lineFreq, LineFreq, FREQS)
      && page.period == Show(m.periodMeters, PeriodMeters, PERIODS)
      && page.variant == Show(m.dataVariant, DataVariant, VARIANTS)
    ensures forall i :: 0 <= i < 3 ==> ToUi(slot).channels[i] == EntriesOf(slot.body.phases[i])
  {
    hide YamlToUi, METER_TABLE, Show;
    MeterTranslates(0);
    forall i | 0 <= i < 3
      ensures ToUiChannel(slot.body.phases[i], i) == EntriesOf(slot.body.phases[i])
    {
      MeterTranslates(i);
    }
  }

  predicate ModuleKept(m: MeterModule) {
    Kept(m.moduleVersion, VERSIONS) && Kept(m.conType, CON_TYPES) && Kept(m.range, RANGES)
    && Kept(m.periodMeters, PERIODS) && Kept(m.lineFreq, FREQS) && Kept(m.dataVariant, VARIANTS)
  }

  lemma ModuleThereAndBack(slot: SlotConfig)
    requires DeviceShaped(slot)
    ensures |ToUi(slot).channels| == 3
    ensures ToDevice(ToUi(slot)).body.meter == slot.body.meter <==> ModuleKept(slot.body.meter)
  {
    hide YamlToUi, UiToYaml, METER_TABLE, Show, Read, Kept, ToUiChannel, ToDeviceChannel;
    UiIs(slot);
    DeviceIs(ToUi(slot));
    var m := slot.body.meter;
    ShownAndRead(m.moduleVersion, ModVer, VERSIONS);
    ShownAndRead(m.conType, ConType, CON_TYPES);
    ShownAndRead(m.range, Range, RANGES);
    ShownAndRead(m.periodMeters, PeriodMeters, PERIODS);
    ShownAndRead(m.lineFreq, LineFreq, FREQS);
    ShownAndRead(m.dataVariant, DataVariant, VARIANTS);
  }

  /** Import and export of an SM1238 undo each other exactly on listed numbers. */
  lemma DeviceRoundTrip(slot: SlotConfig)
    requires DeviceShaped(slot)
    ensures |ToUi(slot).channels| == 3
    ensures ToDevice(ToUi(slot)).body == slot.body
       <==> ModuleKept(slot.body.meter) && forall c :: c in slot.body.phases ==> Kept(c.ctSecondCur, CTS)
  {
    hide ToUi, ToDevice, Show, Read, Kept, ModuleKept;
    ModuleThereAndBack(slot);
    UiIs(slot);
    DeviceIs(ToUi(slot));
    HeadShape(ToUi(slot));
    var b, c := slot.body, ToDevice(ToUi(slot)).body;
    forall i | 0 <= i < 3
      ensures c.phases[i] == b.phases[i] <==> Kept(b.phases[i].ctSecondCur, CTS)
    {
      ShownAndRead(b.phases[i].ctSecondCur, CtSndCur, CTS);
    }
    assert b.phases == [b.phases[0], b.phases[1], b.phases[2]];
    assert c.phases == [c.phases[0], c.phases[1], c.phases[2]];
  }

  lemma HeadShape(page: Page)
    requires |page.channels| == 3
    ensures ToDevice(page).mlfb == page.mlfb && ToDevice(page).description == "SM1238 Energy Meter 480VAC"
    ensures ToDevice(page).body.MeterBody? && |ToDevice(page).body.phases| == 3
  {
  }

  // ---------- dependent selections ----------

  function Dropping(codes: set<int>): Option<Choice> {
    Some(Choice(Selection(DataVariant, VARIANTS - codes), Label(DataVariant, 0xFE)))
  }

  function Single(code: int): Option<Choice> {
    Some(Choice(Selection(DataVariant, {code}), Label(DataVariant, code)))
  }

  /** The data variants setDataVariantSelection offers; nothing when no case applies. */
  function VariantsFor(version: UiText, conType: UiText): Option<Choice> {
    if version == Label(ModVer, 224) then Single(0xE0)
    else if version == Label(ModVer, 225) then Single(0xE1)
    else if version == Label(ModVer, 226) then Single(0xE2)
    else if version == Label(ModVer, 227) then Single(0xE3)
    else if version == Label(ModVer, 112) then
      if THREE_PHASE.Includes(conType) then Dropping({})
      else if conType == ONE_PHASE then Dropping({0xF7, 0xF6, 0xF5, 0x9D, 0x9C, 0x9B, 0x9A})
      else if conType == TWO_PHASE then Dropping({0xF6, 0x9B, 0x9A})
      else None
    else if version == Label(ModVer, 32) then
      if THREE_PHASE.Includes(conType) then Dropping({0xE3})
      else if conType == ONE_PHASE then Dropping({0xE3, 0xF7, 0xF6, 0xF5, 0x9D, 0x9C, 0x9B, 0x9A})
      else if conType == TWO_PHASE then Dropping({0xE3, 0xF6, 0x9B, 0x9A})
      else None
    else None
  }

  function WithVariants(p: Page): Page {
    match VariantsFor(p.version, p.conType)
    case None => p
    case Some(choice) =>
      p.(variantSelection := choice.selection,
         variant := if choice.selection.Includes(p.variant) then p.variant else choice.standard)
  }

  function WithCt(conType: UiText, u: Channel): Channel {
    if conType == SINGLES then u.(ctSelection := Selection(CtSndCur, {0}), ctSecond := CT_0)
    else u.(ctSelection := BOTH_CTS)
  }

  /** The entries a balanced connection copies from channel 0. */
  function Mirrored(u: Channel, from: Channel): Channel {
    u.(ctPrimary := from.ctPrimary, ctSecond := from.ctSecond, vtPrim := from.vtPrim, vtSecond := from.vtSecond,
       llCur := from.llCur, reCurDir := from.reCurDir)
  }

  function OnConType(p: Page): Page
    requires |p.channels| == 3
  {
    var q := WithVariants(p);
    var us := seq(3, i requires 0 <= i < 3 => WithCt(p.conType, p.channels[i]));
    q.(channels := if p.conType == BALANCED then [us[0], Mirrored(us[1], us[0]), Mirrored(us[2], us[0])] else us)
  }

  // ---------- editing ----------

  datatype Slider = TolVal | TolTime | CtPrimary | LlCur | VtSecond | VtPrim

  datatype Box = OverCur | OverVol | UnderVol | LlVol | OverCal | ActHour | EnGate | ReCurDir

  datatype Edit =
    | SelectConType(t: UiText)
    | SelectVersion(t: UiText)
    | SelectVariant(t: UiText)
    | SelectRange(t: UiText)
    | SelectFreq(t: UiText)
    | SelectPeriod(t: UiText)
    | CheckGate(on: bool)
    | CheckMinMax(on: bool)
    | CheckDiagLine(on: bool)
    | SlideLineTol(v: int)
    | SelectCtSecond(i: nat, t: UiText)
    | Slide(i: nat, slider: Slider, v: int)
    | Check(i: nat, box: Box, on: bool)

  function Clamp(v: int, low: int, high: int): int {
    if v < low then low else if v > high then high else v
  }

  function Bounds(s: Slider): (int, int) {
    match s
    case TolVal => (10, 100)
    case TolTime => (0, 60000)
    case CtPrimary => (1, 99999)
    case LlCur => (2, 250)
    case VtSecond => (1, 500)
    case VtPrim => (1, 999999)
  }

  function SetSlider(u: Channel, s: Slider, v: int): Channel {
    match s
    case TolVal => u.(tolVal := Num(v))
    case TolTime => u.(tolTime := Num(v))
    case CtPrimary => u.(ctPrimary := Num(v))
    case LlCur => u.(llCur := Num(v))
    case VtSecond => u.(vtSecond := Num(v))
    case VtPrim => u.(vtPrim := Num(v))
  }

  function SetBox(u: Channel, b: Box, on: bool): Channel {
    match b
    case OverCur => u.(overCur := Flag(on))
    case OverVol => u.(overVol := Flag(on))
    case UnderVol => u.(underVol := Flag(on))
    case LlVol => u.(llVol := Flag(on))
    case OverCal => u.(overCal := Flag(on))
    case ActHour => u.(actHour := Flag(on))
    case EnGate => u.(enGate := Flag(on))
    case ReCurDir => u.(reCurDir := Flag(on))
  }

  /** isChannelDisabled. */
  predicate Dead(conType: UiText, i: nat) {
    conType == OFF || (i == 1 && conType == ONE_PHASE) || (i == 2 && (conType == ONE_PHASE || conType == TWO_PHASE))
  }

  predicate Follows(conType: UiText, i: nat) {
    conType == BALANCED && i > 0
  }

  predicate MirroredSlider(s: Slider) {
    s in {CtPrimary, LlCur, VtSecond, VtPrim}
  }

  /** The edits the page lets a user make. A typed number is clamped when the entry loses the focus. */
  predicate Enabled(p: Page, e: Edit) {
    match e
    case SelectConType(t) => TextIn(t, ConType, CON_TYPES)
    case SelectVersion(t) => p.conType != OFF && TextIn(t, ModVer, {32, 112})
    case SelectVariant(t) => p.conType != OFF && p.variantSelection.Includes(t)
    case SelectRange(t) => p.conType != OFF && TextIn(t, Range, RANGES)
    case SelectFreq(t) => p.conType != OFF && TextIn(t, LineFreq, FREQS)
    case SelectPeriod(t) => p.conType != OFF && TextIn(t, PeriodMeters, PERIODS)
    case CheckGate(_) => p.conType != OFF
    case CheckMinMax(_) => p.conType != OFF
    case CheckDiagLine(_) => p.conType != OFF
    case SlideLineTol(_) => p.conType != OFF
    case SelectCtSecond(i, t) =>
      i < 3 && |p.channels| == 3 && !Dead(p.conType, i) && !Follows(p.conType, i) && p.conType != SINGLES
      && p.channels[i].ctSelection.Includes(t)
    case Slide(i, s, _) => i < 3 && !Dead(p.conType, i) && !(MirroredSlider(s) && Follows(p.conType, i))
    case Check(i, b, _) => i < 3 && !Dead(p.conType, i) && !(b.ReCurDir? && Follows(p.conType, i))
  }

  /** The channels that an edit of a mirrored entry of channel i reaches. */
  predicate Reaches(conType: UiText, i: nat, j: nat) {
    j == i || (conType == BALANCED && i == 0)
  }

  /** Channel j after the handler of an entry of channel i. */
  function CtSpread(p: Page, i: nat, j: nat): Channel
    requires |p.channels| == 3 && i < 3 && j < 3
  {
    if Reaches(p.conType, i, j) then p.channels[j].(ctSecond := p.channels[i].ctSecond) else p.channels[j]
  }

  function DirSpread(p: Page, i: nat, j: nat): Channel
    requires |p.channels| == 3 && i < 3 && j < 3
  {
    if Reaches(p.conType, i, j) then p.channels[j].(reCurDir := p.channels[i].reCurDir) else p.channels[j]
  }

  function SliderSpread(p: Page, i: nat, j: nat, s: Slider, v: int): Channel
    requires |p.channels| == 3 && j < 3
  {
    if Reaches(p.conType, i, j) then SetSlider(p.channels[j], s, v) else p.channels[j]
  }

  function Handled(p: Page, e: Edit): (q: Page)
    requires |p.channels| == 3
    ensures |q.channels| == 3
  {
    match e
    case SelectConType(t) => OnConType(p.(conType := t))
    case SelectVersion(t) => WithVariants(p.(version := t))
    case SelectVariant(t) => p.(variant := t)
    case SelectRange(t) => p.(range := t)
    case SelectFreq(t) => p.(freq := t)
    case SelectPeriod(t) => p.(period := t)
    case CheckGate(on) => p.(gate := Flag(on))
    case CheckMinMax(on) => p.(minMax := Flag(on))
    case CheckDiagLine(on) => p.(diagLine := Flag(on))
    case SlideLineTol(v) => p.(lineTol := Num(Clamp(v, 1, 50)))
    case SelectCtSecond(i, t) =>
      p.(channels := seq(3, j requires 0 <= j < 3 =>
        if Reaches(p.conType, i, j) then p.channels[j].(ctSecond := t) else p.channels[j]))
    case Slide(i, s, v) =>
      p.(channels := seq(3, j requires 0 <= j < 3 =>
        if (if MirroredSlider(s) then Reaches(p.conType, i, j) else j == i)
        then SetSlider(p.channels[j], s, Clamp(v, Bounds(s).0, Bounds(s).1)) else p.channels[j]))
    case Check(i, b, on) =>
      p.(channels := seq(3, j requires 0 <= j < 3 =>
        if (if b.ReCurDir? then Reaches(p.conType, i, j) else j == i)
        then SetBox(p.channels[j], b, on) else p.channels[j]))
  }

  function ClearedChannel(u: Channel, off: bool, dirOff: bool): Channel {
    var w :=
      if off then
        u.(overCur := Flag(false), overVol := Flag(false), underVol := Flag(false), llVol := Flag(false),
           overCal := Flag(false), actHour := Flag(false), enGate := Flag(false))
      else u;
    if dirOff then w.(reCurDir := Flag(false)) else w
  }

  predicate DirDisabled(conType: UiText, i: nat) {
    Dead(conType, i) || Follows(conType, i)
  }

  /** Check boxes that are disabled now and were not before are cleared. */
  function Cleared(was: Option<UiText>, p: Page): (q: Page)
    requires |p.channels| == 3
    ensures |q.channels| == 3
  {
    var q :=
      if p.conType == OFF && was != Some(OFF)
      then p.(gate := Flag(false), minMax := Flag(false), diagLine := Flag(false))
      else p;
    q.(channels := seq(3, i requires 0 <= i < 3 =>
      ClearedChannel(p.channels[i],
                     Dead(p.conType, i) && (was.None? || !Dead(was.value, i)),
                     DirDisabled(p.conType, i) && (was.None? || !DirDisabled(was.value, i)))))
  }

  function Mounted(p: Page): Page
    requires |p.channels| == 3
  {
    Cleared(None, p)
  }

  function Step(p: Page, e: Edit): (q: Page)
    requires |p.channels| == 3
    ensures |q.channels| == 3
  {
    Cleared(Some(p.conType), Handled(p, e))
  }

  /** The editor: the handlers overwrite the entries of the page in place. */
  class Editor {
    var data: Page

    predicate Valid()
      reads this
    {
      |data.channels| == 3
    }

    constructor (page: Page)
      requires |page.channels| == 3
      ensures Valid() && data == page
    {
      data := page;
    }

    method Put(i: nat, u: Channel)
      requires Valid() && i < 3
      modifies this
      ensures Valid() && data == old(data).(channels := old(data).channels[i := u])
    {
      data := data.(channels := data.channels[i := u]);
    }

    method SetDataVariantSelection()
      requires Valid()
      modifies this
      ensures Valid() && data == WithVariants(old(data))
    {
      hide VariantsFor;
      var choice := VariantsFor(data.version, data.conType);
      if choice.Some? {
        data := data.(variantSelection := choice.value.selection);
        if !data.variantSelection.Includes(data.variant) {
          data := data.(variant := choice.value.standard);
        }
      }
    }

    method SetCtSndCurSelection()
      requires Valid()
      modifies this
      ensures Valid() && data == old(data).(channels := data.channels)
      ensures forall i :: 0 <= i < 3 ==> data.channels[i] == WithCt(old(data).conType, old(data).channels[i])
    {
      ghost var before := data;
      for i := 0 to 3
        invariant Valid() && data == before.(channels := data.channels)
        invariant forall j :: 0 <= j < i ==> data.channels[j] == WithCt(before.conType, before.channels[j])
        invariant forall j :: i <= j < 3 ==> data.channels[j] == before.channels[j]
      {
        if data.conType == SINGLES {
          Put(i, data.channels[i].(ctSelection := Selection(CtSndCur, {0})));
          Put(i, data.channels[i].(ctSecond := CT_0));
        } else {
          Put(i, data.channels[i].(ctSelection := BOTH_CTS));
        }
      }
    }

    method Mirror(i: nat)
      requires Valid() && 1 <= i < 3
      modifies this
      ensures Valid()
      ensures data == old(data).(channels :=
                old(data).channels[i := Mirrored(old(data).channels[i], old(data).channels[0])])
    {
      Put(i, data.channels[i].(ctPrimary := data.channels[0].ctPrimary));
      Put(i, data.channels[i].(ctSecond := data.channels[0].ctSecond));
      Put(i, data.channels[i].(vtPrim := data.channels[0].vtPrim));
      Put(i, data.channels[i].(vtSecond := data.channels[0].vtSecond));
      Put(i, data.channels[i].(llCur := data.channels[0].llCur));
      Put(i, data.channels[i].(reCurDir := data.channels[0].reCurDir));
    }

    method UpdateSelectionOnChangeConType()
      requires Valid()
      modifies this
      ensures Valid() && data == OnConType(old(data))
    {
      hide WithVariants, WithCt, Mirrored;
      ghost var before := data;
      SetDataVariantSelection();
      VariantsLeaveRest(before);
      SetCtSndCurSelection();
      if data.conType == BALANCED {
        for i := 1 to 3
          invariant Valid() && data == WithVariants(before).(channels := data.channels)
          invariant data.channels[0] == WithCt(before.conType, before.channels[0])
          invariant forall j :: 1 <= j < i ==>
            data.channels[j] == Mirrored(WithCt(before.conType, before.channels[j]), data.channels[0])
          invariant forall j :: i <= j < 3 ==> data.channels[j] == WithCt(before.conType, before.channels[j])
        {
          Mirror(i);
        }
      }
      assert data.channels == OnConType(before).channels;
    }

    method UpdateCtSecondCur(i: nat)
      requires Valid() && i < 3
      modifies this
      ensures Valid() && data == old(data).(channels := data.channels)
      ensures forall j :: 0 <= j < 3 ==> data.channels[j] == CtSpread(old(data), i, j)
    {
      if data.conType == BALANCED && i == 0 {
        var newValue := data.channels[i].ctSecond;
        Put(1, data.channels[1].(ctSecond := newValue));
        Put(2, data.channels[2].(ctSecond := newValue));
      }
    }

    method UpdateReCurDir(i: nat)
      requires Valid() && i < 3
      modifies this
      ensures Valid() && data == old(data).(channels := data.channels)
      ensures forall j :: 0 <= j < 3 ==> data.channels[j] == DirSpread(old(data), i, j)
    {
      if data.conType == BALANCED && i == 0 {
        var newValue := data.channels[i].reCurDir;
        Put(1, data.channels[1].(reCurDir := newValue));
        Put(2, data.channels[2].(reCurDir := newValue));
      }
    }

    /** The handler of a mirrored slider whose entry of channel i now holds v. */
    method UpdateSlider(i: nat, s: Slider, v: int)
      requires Valid() && i < 3 && MirroredSlider(s) && data.channels[i] == SetSlider(data.channels[i], s, v)
      modifies this
      ensures Valid() && data == old(data).(channels := data.channels)
      ensures forall j :: 0 <= j < 3 ==> data.channels[j] == SliderSpread(old(data), i, j, s, v)
    {
      hide SetSlider;
      if data.conType == BALANCED && i == 0 {
        Put(1, SetSlider(data.channels[1], s, v));
        Put(2, SetSlider(data.channels[2], s, v));
      }
    }

    /** A number is stored as typed, then clamped when the entry loses the focus; the handler runs
        both times. */
    method ChangeSlider(i: nat, s: Slider, v: int)
      requires Valid() && Enabled(data, Slide(i, s, v))
      modifies this
      ensures Valid() && data == Handled(old(data), Slide(i, s, v))
    {
      hide SetSlider, Enabled, MirroredSlider, Bounds;
      InRange(data, Slide(i, s, v));
      ghost var before := data;
      SlidersOverwrite(before.channels[i], s, v, v);
      Put(i, SetSlider(data.channels[i], s, v));
      if MirroredSlider(s) {
        UpdateSlider(i, s, v);
      }
      var w := Clamp(v, Bounds(s).0, Bounds(s).1);
      forall j | 0 <= j < 3
        ensures SetSlider(SetSlider(before.channels[j], s, v), s, w) == SetSlider(before.channels[j], s, w)
        ensures SetSlider(SetSlider(before.channels[j], s, w), s, w) == SetSlider(before.channels[j], s, w)
      {
        SlidersOverwrite(before.channels[j], s, v, w);
        SlidersOverwrite(before.channels[j], s, w, w);
      }
      Put(i, SetSlider(data.channels[i], s, w));
      if MirroredSlider(s) {
        UpdateSlider(i, s, w);
      }
      assert data.channels == Handled(before, Slide(i, s, v)).channels;
    }

    method ClearChannel(i: nat, off: bool, dirOff: bool)
      requires Valid() && i < 3 && (dirOff ==> DirDisabled(data.conType, i))
      modifies this
      ensures Valid()
      ensures data == old(data).(channels :=
                old(data).channels[i := ClearedChannel(old(data).channels[i], off, dirOff)])
    {
      if off {
        Put(i, data.channels[i].(overCur := Flag(false), overVol := Flag(false), underVol := Flag(false)));
        Put(i, data.channels[i].(llVol := Flag(false), overCal := Flag(false), actHour := Flag(false),
                                 enGate := Flag(false)));
      }
      if dirOff {
        Put(i, data.channels[i].(reCurDir := Flag(false)));
        ghost var cleared := data;
        UpdateReCurDir(i);
        assert data.channels == cleared.channels;
      }
    }

    /** Clears the check boxes that are disabled now and were not under the connection type was. */
    method ClearBoxes(was: UiText)
      requires Valid()
      modifies this
      ensures Valid() && data == Cleared(Some(was), old(data))
    {
      hide Dead, Follows, ClearedChannel;
      ghost var before := data;
      if data.conType == OFF && was != OFF {
        data := data.(diagLine := Flag(false));
        data := data.(gate := Flag(false));
        data := data.(minMax := Flag(false));
      }
      for i := 0 to 3
        invariant Valid() && data == Cleared(Some(was), before).(channels := data.channels)
        invariant forall j :: 0 <= j < i ==> data.channels[j] == Cleared(Some(was), before).channels[j]
        invariant forall j :: i <= j < 3 ==> data.channels[j] == before.channels[j]
      {
        ClearChannel(i, Dead(data.conType, i) && !Dead(was, i), DirDisabled(data.conType, i) && !DirDisabled(was, i));
      }
      assert data.channels == Cleared(Some(was), before).channels;
    }

    /** An entry changes: the new value, the handler of the entry, then the check boxes. */
    method Change(e: Edit)
      requires Valid() && Enabled(data, e)
      modifies this
      ensures Valid() && data == Step(old(data), e)
    {
      hide WithVariants, OnConType, SetSlider, SetBox, Enabled, Cleared;
      ghost var before := data;
      var was := data.conType;
      match e {
        case SelectConType(t) =>
          data := data.(conType := t);
          UpdateSelectionOnChangeConType();
        case SelectVersion(t) =>
          data := data.(version := t);
          SetDataVariantSelection();
        case SelectVariant(t) => data := data.(variant := t);
        case SelectRange(t) => data := data.(range := t);
        case SelectFreq(t) => data := data.(freq := t);
        case SelectPeriod(t) => data := data.(period := t);
        case CheckGate(on) => data := data.(gate := Flag(on));
        case CheckMinMax(on) => data := data.(minMax := Flag(on));
        case CheckDiagLine(on) => data := data.(diagLine := Flag(on));
        case SlideLineTol(v) =>
          data := data.(lineTol := Num(v));
          data := data.(lineTol := Num(Clamp(v, 1, 50)));
        case SelectCtSecond(i, t) =>
          InRange(before, e);
          Put(i, data.channels[i].(ctSecond := t));
          UpdateCtSecondCur(i);
          assert data.channels == Handled(before, e).channels;
        case Slide(i, s, v) => ChangeSlider(i, s, v);
        case Check(i, b, on) =>
          InRange(before, e);
          BoxIs(data.channels[i], on);
          Put(i, SetBox(data.channels[i], b, on));
          if b.ReCurDir? {
            forall j | 0 <= j < 3
              ensures SetBox(before.channels[j], ReCurDir, on) == before.channels[j].(reCurDir := Flag(on))
            {
              BoxIs(before.channels[j], on);
            }
            UpdateReCurDir(i);
          }
          assert data.channels == Handled(before, e).channels;
      }
      assert data == Handled(before, e);
      ClearBoxes(was);
    }
  }

  lemma VariantsLeaveRest(p: Page)
    ensures WithVariants(p)
            == p.(variantSelection := WithVariants(p).variantSelection, variant := WithVariants(p).variant)
  {
  }

  lemma SlidersOverwrite(u: Channel, s: Slider, v: int, w: int)
    ensures SetSlider(SetSlider(u, s, v), s, w) == SetSlider(u, s, w)
  {
  }

  lemma InRange(p: Page, e: Edit)
    requires Enabled(p, e)
    ensures e.SelectCtSecond? || e.Slide? || e.Check? ==> e.i < 3
  {
  }

  lemma BoxIs(u: Channel, on: bool)
    ensures SetBox(u, ReCurDir, on) == u.(reCurDir := Flag(on))
  {
  }
}
