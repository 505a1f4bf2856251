/** The SM1231 RTD page: its label tables, the translation between page and device, and the
    editor that keeps range and temperature coefficient in step with the measurement type. */
module RtdPage {
  import opened Common
  import opened Modules
  import opened TextTables
  import opened Schema

  // ---------- label tables ----------

  const TYPES: set<int> := {0, 4, 5, 6, 7, 8, 9}
  const RESISTANCE_RANGES: set<int> := {1, 2, 3}
  const QUARTERS: set<int> := {0, 1, 2, 3}
  const COEFFS: set<int> := {0, 1, 2, 3, 5, 7, 8, 9, 10, 11, 12, 13}
  const UNITS: set<int> := {0, 1}

  const RESISTANCE: string := "resistance"
  const THERMAL: string := "thermal"
  const DEACTIVATED: string := "deactivated"

  const TYPE_LIST: seq<int> := [0, 4, 5, 6, 7, 8, 9]
  const RESISTANCE_LIST: seq<int> := [1, 2, 3]
  const THERMAL_LIST: seq<int> := [0, 2, 3, 4, 5, 6, 11, 12, 15, 16, 18, 20, 22, 24, 26, 28]
  const QUARTER_LIST: seq<int> := [0, 1, 2, 3]
  const COEFF_LIST: seq<int> := [0, 1, 2, 3, 5, 7, 8, 9, 10, 11, 12, 13]
  const UNIT_LIST: seq<int> := [0, 1]

  const RTD_TABLE: Table := [
    Item([ChannelWord(7, TypeName)], [Rule(ALL, Codes(Type, TYPE_LIST))]),
    Item([ChannelWord(7, RangeName)], [
           Rule(RESISTANCE, Codes(ResistanceRange, RESISTANCE_LIST)),
           Rule(THERMAL, Codes(ThermalRange, THERMAL_LIST)),
           Rule(DEACTIVATED, Codes(ResistanceRange, RESISTANCE_LIST) + Codes(ThermalRange, THERMAL_LIST))]),
    Item([Word(IntegTimeName)], [Rule(ALL, Codes(IntTime, QUARTER_LIST))]),
    Item([ChannelWord(7, SmoothName)], [Rule(ALL, Codes(Smooth, QUARTER_LIST))]),
    Item([ChannelWord(7, TemperCoeffName)], [Rule(ALL, Codes(TempCoeff, COEFF_LIST))]),
    Item([ChannelWord(7, TemperUnitName)], [Rule(ALL, Codes(TempUnit, UNIT_LIST))])]

  lemma Lists()
    ensures Members(TYPE_LIST) == TYPES && Members(RESISTANCE_LIST) == RESISTANCE_RANGES
    ensures Members(QUARTER_LIST) == QUARTERS && Members(UNIT_LIST) == UNITS
  {
  }

  lemma LongLists()
    ensures Members(THERMAL_LIST) == THERMAL_RANGES && Members(COEFF_LIST) == COEFFS
  {
  }

  lemma FirstItems(i: nat)
    requires i <= 7
    ensures OnlyItem(RTD_TABLE, 0, 0, OfChannel(i, TypeName)) && OnlyItem(RTD_TABLE, 1, 0, OfChannel(i, RangeName))
    ensures OnlyItem(RTD_TABLE, 2, 0, Whole(IntegTimeName))
  {
    hide Codes, TYPE_LIST, QUARTER_LIST, COEFF_LIST, UNIT_LIST, THERMAL_LIST, RESISTANCE_LIST;
  }

  lemma LastItems(i: nat)
    requires i <= 7
    ensures OnlyItem(RTD_TABLE, 3, 0, OfChannel(i, SmoothName))
    ensures OnlyItem(RTD_TABLE, 4, 0, OfChannel(i, TemperCoeffName))
    ensures OnlyItem(RTD_TABLE, 5, 0, OfChannel(i, TemperUnitName))
  {
    hide Codes, TYPE_LIST, QUARTER_LIST, COEFF_LIST, UNIT_LIST, THERMAL_LIST, RESISTANCE_LIST;
  }

  lemma RtdTranslates(i: nat)
    requires i <= 7
    ensures Translates(RTD_TABLE, OfChannel(i, TypeName), ALL, Type, TYPES)
    ensures Translates(RTD_TABLE, Whole(IntegTimeName), ALL, IntTime, QUARTERS)
    ensures Translates(RTD_TABLE, OfChannel(i, SmoothName), ALL, Smooth, QUARTERS)
    ensures Translates(RTD_TABLE, OfChannel(i, TemperCoeffName), ALL, TempCoeff, COEFFS)
    ensures Translates(RTD_TABLE, OfChannel(i, TemperUnitName), ALL, TempUnit, UNITS)
  {
    hide Translates, OnlyItem, Codes, Members, TYPE_LIST, QUARTER_LIST, COEFF_LIST, UNIT_LIST, THERMAL_LIST,
         RESISTANCE_LIST;
    Lists();
    LongLists();
    FirstItems(i);
    LastItems(i);
    KeyTranslates(RTD_TABLE, 0, 0, OfChannel(i, TypeName), RTD_TABLE[0].rules[0], Type, TYPE_LIST, TYPES);
    KeyTranslates(RTD_TABLE, 2, 0, Whole(IntegTimeName), RTD_TABLE[2].rules[0], IntTime, QUARTER_LIST, QUARTERS);
    KeyTranslates(RTD_TABLE, 3, 0, OfChannel(i, SmoothName), RTD_TABLE[3].rules[0], Smooth, QUARTER_LIST, QUARTERS);
    KeyTranslates(RTD_TABLE, 4, 0, OfChannel(i, TemperCoeffName), RTD_TABLE[4].rules[0], TempCoeff, COEFF_LIST, COEFFS);
    KeyTranslates(RTD_TABLE, 5, 0, OfChannel(i, TemperUnitName), RTD_TABLE[5].rules[0], TempUnit, UNIT_LIST, UNITS);
  }

  /** What the range rules make of a number and of a text; the rule for a deactivated channel lists
      the numbers 2 and 3 twice, and the resistance comes first. */
  function ShowRange(v: Value, scenario: string): UiText {
    if scenario == RESISTANCE || (scenario == DEACTIVATED && NumIn(v, RESISTANCE_RANGES))
    then Show(v, ResistanceRange, RESISTANCE_RANGES)
    else Show(v, ThermalRange, THERMAL_RANGES)
  }

  function ReadRange(t: UiText, scenario: string): Value {
    if scenario == RESISTANCE || (scenario == DEACTIVATED && TextIn(t, ResistanceRange, RESISTANCE_RANGES))
    then Read(t, ResistanceRange, RESISTANCE_RANGES)
    else Read(t, ThermalRange, THERMAL_RANGES)
  }

  lemma RangeEntries()
    ensures RuleEntries(RTD_TABLE[1].rules, RESISTANCE) == Codes(ResistanceRange, RESISTANCE_LIST)
    ensures RuleEntries(RTD_TABLE[1].rules, THERMAL) == Codes(ThermalRange, THERMAL_LIST)
    ensures RuleEntries(RTD_TABLE[1].rules, DEACTIVATED)
         == Codes(ResistanceRange, RESISTANCE_LIST) + Codes(ThermalRange, THERMAL_LIST)
  {
    hide Codes;
    var rules := RTD_TABLE[1].rules;
    assert |RESISTANCE| == 10 && |THERMAL| == 7 && |DEACTIVATED| == 11;
    assert rules[1..][0] == rules[1] && rules[1..][1..] == rules[2..];
    assert rules[2..][0] == rules[2] && rules[2..][1..] == [];
    forall scenario | scenario in {RESISTANCE, THERMAL, DEACTIVATED}
      ensures RuleEntries(rules[2..], scenario) == if scenario == DEACTIVATED then rules[2].mapping else []
      ensures RuleEntries(rules[1..], scenario)
           == (if scenario == THERMAL then rules[1].mapping else []) + RuleEntries(rules[2..], scenario)
    {
    }
  }

  lemma RangeTranslates(i: nat, scenario: string, t: UiText, v: Value)
    requires i <= 7 && scenario in {RESISTANCE, THERMAL, DEACTIVATED}
    ensures UiToYaml(RTD_TABLE, OfChannel(i, RangeName), t, scenario) == ReadRange(t, scenario)
    ensures YamlToUi(RTD_TABLE, OfChannel(i, RangeName), v, scenario) == ShowRange(v, scenario)
  {
    hide RuleEntries, OnlyItem, Codes, InTable, Applicable, InMapping, Members;
    var key := OfChannel(i, RangeName);
    Lists();
    LongLists();
    FirstItems(i);
    RangeEntries();
    OneItem(RTD_TABLE, 1, 0, key, scenario);
    SearchIsFirstMatch(RTD_TABLE, key, scenario, ByUi(t));
    SearchIsFirstMatch(RTD_TABLE, key, scenario, ByYaml(v));
    CodesSearch(ResistanceRange, RESISTANCE_LIST, t, v);
    CodesSearch(ThermalRange, THERMAL_LIST, t, v);
    InAppend(Codes(ResistanceRange, RESISTANCE_LIST), Codes(ThermalRange, THERMAL_LIST), ByUi(t));
    InAppend(Codes(ResistanceRange, RESISTANCE_LIST), Codes(ThermalRange, THERMAL_LIST), ByYaml(v));
  }

  // ---------- the page ----------

  const TYPE_SELECTION: Selection := Selection(Type, TYPES)
  const RESISTOR_TYPES: Selection := Selection(Type, RESISTORS)
  const THERMAL_TYPES: Selection := Selection(Type, THERMALS)
  const RESISTANCE_SELECTION: Selection := Selection(ResistanceRange, RESISTANCE_RANGES)
  const THERMAL_SELECTION: Selection := Selection(ThermalRange, THERMAL_RANGES)
  const OFF: UiText := Label(Type, 0)

  datatype Channel = Channel(
    kind: UiText, rangeSelection: Selection, range: UiText,
    coeffSelection: Option<Selection>, coeff: UiText, unit: UiText, smooth: UiText,
    overflow: Value, underflow: Value, openWire: Value)

  datatype Page = Page(mlfb: string, powerAlarm: Value, integTime: UiText, channels: seq<Channel>)

  function Coefficients(codes: set<int>, standard: int): Option<Choice> {
    Some(Choice(Selection(TempCoeff, codes), Label(TempCoeff, standard)))
  }

  /** The coefficients offered for a range, and the one chosen by default; nothing for a label that
      is no thermal range. */
  function DecideTempCoeff(range: UiText): Option<Choice> {
    if !(range.Label? && range.group == ThermalRange) then None
    else if range.code == 0 then Coefficients({0}, 0)
    else if range.code in {2, 4} then Coefficients({0, 1, 2, 3, 5}, 0)
    else if range.code == 3 then Coefficients({7, 8, 9}, 9)
    else if range.code in {5, 11} then Coefficients({0, 1, 2, 3}, 0)
    else if range.code in {6, 12, 16, 18} then Coefficients({8, 9}, 9)
    else if range.code == 15 then Coefficients({11, 12, 13}, 12)
    else if range.code in {20, 22} then Coefficients({0, 5}, 5)
    else if range.code in {24, 26} then Coefficients({11, 13}, 11)
    else if range.code == 28 then Coefficients({10}, 10)
    else None
  }

  const CHANNEL_DEFAULT: Channel := Channel(
    Label(Type, 7), THERMAL_SELECTION, Label(ThermalRange, 0),
    Some(Selection(TempCoeff, {0})), Label(TempCoeff, 0), Label(TempUnit, 0), Label(Smooth, 1),
    Flag(true), Flag(true), Flag(true))

  function ChannelNums(mlfb: string): nat {
    if mlfb == SM1231_4RTD then 4 else 8
  }

  function PageDefault(mlfb: string): Page {
    Page(mlfb, Flag(true), Label(IntTime, 2), seq(ChannelNums(mlfb), _ => CHANNEL_DEFAULT))
  }

  // ---------- device to page ----------

  function DeviceScenario(kind: Value): string {
    if NumIn(kind, RESISTORS) then RESISTANCE else if kind == Num(0) then DEACTIVATED else THERMAL
  }

  function ToUiChannel(c: RtdChannel, i: nat): Channel {
    var kind := YamlToUi(RTD_TABLE, OfChannel(i, TypeName), c.kind, ALL);
    var range := YamlToUi(RTD_TABLE, OfChannel(i, RangeName), c.range, DeviceScenario(c.kind));
    Channel(
      kind,
      if RESISTOR_TYPES.Includes(kind) then RESISTANCE_SELECTION else THERMAL_SELECTION,
      range,
      if !RESISTOR_TYPES.Includes(kind) && THERMAL_TYPES.Includes(kind) then CoeffSelection(range)
      else CHANNEL_DEFAULT.coeffSelection,
      YamlToUi(RTD_TABLE, OfChannel(i, TemperCoeffName), c.temperCoeff, ALL),
      YamlToUi(RTD_TABLE, OfChannel(i, TemperUnitName), c.temperUnit, ALL),
      YamlToUi(RTD_TABLE, OfChannel(i, SmoothName), c.smooth, ALL),
      c.overflowAlarm, c.underflowAlarm, c.openWireAlarm)
  }

  function CoeffSelection(range: UiText): Option<Selection> {
    match DecideTempCoeff(range)
    case Some(choice) => Some(choice.selection)
    case None => None
  }

  function ToUi(slot: SlotConfig): Page
    requires slot.body.RtdBody? && |slot.body.rtd| == ChannelNums(slot.mlfb)
  {
    var b := slot.body;
    Page(slot.mlfb, b.powerAlarm, YamlToUi(RTD_TABLE, Whole(IntegTimeName), b.integTime, ALL),
         seq(|b.rtd|, i requires 0 <= i < |b.rtd| => ToUiChannel(b.rtd[i], i)))
  }

  method ConvertToUiFormat(slot: SlotConfig) returns (page: Page)
    requires slot.body.RtdBody? && |slot.body.rtd| == ChannelNums(slot.mlfb)
    ensures page == ToUi(slot)
  {
    hide YamlToUi, DecideTempCoeff;
    var b := slot.body;
    var integTime := YamlToUi(RTD_TABLE, Whole(IntegTimeName), b.integTime, ALL);
    var channels: seq<Channel> := [];
    for i := 0 to ChannelNums(slot.mlfb)
      invariant |channels| == i
      invariant forall j :: 0 <= j < i ==> channels[j] == ToUiChannel(b.rtd[j], j)
    {
      var c := b.rtd[i];
      var rangeScenario := THERMAL;
      if NumIn(c.kind, RESISTORS) {
        rangeScenario := RESISTANCE;
      } else if c.kind == Num(0) {
        rangeScenario := DEACTIVATED;
      }
      var ch := CHANNEL_DEFAULT.(
        kind := YamlToUi(RTD_TABLE, OfChannel(i, TypeName), c.kind, ALL),
        range := YamlToUi(RTD_TABLE, OfChannel(i, RangeName), c.range, rangeScenario),
        coeff := YamlToUi(RTD_TABLE, OfChannel(i, TemperCoeffName), c.temperCoeff, ALL),
        unit := YamlToUi(RTD_TABLE, OfChannel(i, TemperUnitName), c.temperUnit, ALL),
        smooth := YamlToUi(RTD_TABLE, OfChannel(i, SmoothName), c.smooth, ALL),
        overflow := c.overflowAlarm, underflow := c.underflowAlarm, openWire := c.openWireAlarm);
      if RESISTOR_TYPES.Includes(ch.kind) {
        ch := ch.(rangeSelection := RESISTANCE_SELECTION);
      } else if THERMAL_TYPES.Includes(ch.kind) {
        ch := ch.(rangeSelection := THERMAL_SELECTION, coeffSelection := CoeffSelection(ch.range));
      }
      channels := channels + [ch];
    }
    page := Page(slot.mlfb, b.powerAlarm, integTime, channels);
  }

  // ---------- page to device ----------

  function PageScenario(kind: UiText): string {
    if RESISTOR_TYPES.Includes(kind) then RESISTANCE else if kind == OFF then DEACTIVATED else THERMAL
  }

  function ToDeviceChannel(u: Channel, i: nat): RtdChannel {
    RtdChannel(
      UiToYaml(RTD_TABLE, OfChannel(i, TypeName), u.kind, ALL),
      UiToYaml(RTD_TABLE, OfChannel(i, RangeName), u.range, PageScenario(u.kind)),
      UiToYaml(RTD_TABLE, OfChannel(i, TemperCoeffName), u.coeff, ALL),
      UiToYaml(RTD_TABLE, OfChannel(i, SmoothName), u.smooth, ALL),
      UiToYaml(RTD_TABLE, OfChannel(i, TemperUnitName), u.unit, ALL),
      u.overflow, u.underflow, u.openWire)
  }

  function Description(mlfb: string): string {
    if ChannelNums(mlfb) == 4 then "Analog input module AI4 x RTD" else "Analog input module AI8 x RTD"
  }

  function ToDevice(page: Page): SlotConfig
    requires |page.channels| == ChannelNums(page.mlfb)
  {
    SlotConfig(Description(page.mlfb), page.mlfb,
               RtdBody(UiToYaml(RTD_TABLE, Whole(IntegTimeName), page.integTime, ALL), page.powerAlarm,
                       seq(|page.channels|, i requires 0 <= i < |page.channels| =>
                         ToDeviceChannel(page.channels[i], i))))
  }

  method ConvertToDeviceFormat(page: Page) returns (slot: SlotConfig)
    requires |page.channels| == ChannelNums(page.mlfb)
    ensures slot == ToDevice(page)
  {
    hide UiToYaml;
    var integTime := UiToYaml(RTD_TABLE, Whole(IntegTimeName), page.integTime, ALL);
    var description := Description(page.mlfb);
    var rtd: seq<RtdChannel> := [];
    for i := 0 to ChannelNums(page.mlfb)
      invariant |rtd| == i
      invariant forall j :: 0 <= j < i ==> rtd[j] == ToDeviceChannel(page.channels[j], j)
    {
      var u := page.channels[i];
      var rangeScenario := THERMAL;
      if RESISTOR_TYPES.Includes(u.kind) {
        rangeScenario := RESISTANCE;
      } else if u.kind == OFF {
        rangeScenario := DEACTIVATED;
      }
      rtd := rtd + [RtdChannel(
                      UiToYaml(RTD_TABLE, OfChannel(i, TypeName), u.kind, ALL),
                      UiToYaml(RTD_TABLE, OfChannel(i, RangeName), u.range, rangeScenario),
                      UiToYaml(RTD_TABLE, OfChannel(i, TemperCoeffName), u.coeff, ALL),
                      UiToYaml(RTD_TABLE, OfChannel(i, SmoothName), u.smooth, ALL),
                      UiToYaml(RTD_TABLE, OfChannel(i, TemperUnitName), u.unit, ALL),
                      u.overflow, u.underflow, u.openWire)];
    }
    assert rtd == ToDevice(page).body.rtd;
    slot := SlotConfig(description, page.mlfb, RtdBody(integTime, page.powerAlarm, rtd));
  }

  // ---------- the translations undo each other ----------

  lemma DeviceChannelIs(u: Channel, i: nat)
    requires i <= 7
    ensures ToDeviceChannel(u, i) == RtdChannel(
              Read(u.kind, Type, TYPES), ReadRange(u.range, PageScenario(u.kind)), Read(u.coeff, TempCoeff, COEFFS),
              Read(u.smooth, Smooth, QUARTERS), Read(u.unit, TempUnit, UNITS), u.overflow, u.underflow, u.openWire)
  {
    hide UiToYaml, YamlToUi, RTD_TABLE, ReadRange;
    RtdTranslates(i);
    RangeTranslates(i, PageScenario(u.kind), u.range, Num(0));
  }

  lemma UiChannelIs(c: RtdChannel, i: nat)
    requires i <= 7
    ensures var u := ToUiChannel(c, i);
      && u.kind == Show(c.kind, Type, TYPES) && u.range == ShowRange(c.range, DeviceScenario(c.kind))
      && u.coeff == Show(c.temperCoeff, TempCoeff, COEFFS) && u.smooth == Show(c.smooth, Smooth, QUARTERS)
      && u.unit == Show(c.temperUnit, TempUnit, UNITS)
      && u.overflow == c.overflowAlarm && u.underflow == c.underflowAlarm && u.openWire == c.openWireAlarm
  {
    hide UiToYaml, YamlToUi, RTD_TABLE, ShowRange, DecideTempCoeff;
    RtdTranslates(i);
    RangeTranslates(i, DeviceScenario(c.kind), ErrorText, c.range);
  }

  predicate RangeKept(kind: Value, range: Value) {
    Kept(range, if DeviceScenario(kind) == RESISTANCE then RESISTANCE_RANGES else THERMAL_RANGES)
    || (kind == Num(0) && range == Num(1))
  }

  predicate ChannelKept(c: RtdChannel) {
    && Kept(c.kind, TYPES) && RangeKept(c.kind, c.range) && Kept(c.temperCoeff, COEFFS)
    && Kept(c.smooth, QUARTERS) && Kept(c.temperUnit, UNITS)
  }

  /** Importing a device channel and exporting it again gives it back exactly when its numbers are
      listed, the range under the type's rule. This covers a deactivated channel, too, although
      two labels stand for its ranges 2 and 3. */
  lemma ChannelDeviceRoundTrip(c: RtdChannel, i: nat)
    requires i <= 7
    ensures ToDeviceChannel(ToUiChannel(c, i), i) == c <==> ChannelKept(c)
  {
    hide ToUiChannel, ToDeviceChannel, RTD_TABLE;
    UiChannelIs(c, i);
    DeviceChannelIs(ToUiChannel(c, i), i);
  }

  /** The same for a whole module. */
  lemma DeviceRoundTrip(slot: SlotConfig)
    requires slot.body.RtdBody? && |slot.body.rtd| == ChannelNums(slot.mlfb)
    ensures ToDevice(ToUi(slot)).body == slot.body
       <==> Kept(slot.body.integTime, QUARTERS) && forall c :: c in slot.body.rtd ==> ChannelKept(c)
  {
    hide ToUiChannel, ToDeviceChannel, RTD_TABLE, ChannelKept, Kept, YamlToUi, UiToYaml;
    var b, d := slot.body, ToDevice(ToUi(slot)).body;
    RtdTranslates(0);
    ShownAndRead(b.integTime, IntTime, QUARTERS);
    forall i | 0 <= i < |b.rtd|
      ensures d.rtd[i] == b.rtd[i] <==> ChannelKept(b.rtd[i])
    {
      ChannelDeviceRoundTrip(b.rtd[i], i);
    }
    if forall c :: c in b.rtd ==> ChannelKept(c) {
      assert d.rtd == b.rtd;
    }
    if d == b {
      forall c | c in b.rtd
        ensures ChannelKept(c)
      {
        var i :| 0 <= i < |b.rtd| && b.rtd[i] == c;
        assert d.rtd[i] == b.rtd[i];
      }
    }
  }

  predicate Labelled(u: Channel) {
    && TYPE_SELECTION.Includes(u.kind) && TextIn(u.coeff, TempCoeff, COEFFS)
    && TextIn(u.smooth, Smooth, QUARTERS) && TextIn(u.unit, TempUnit, UNITS)
    && (RESISTOR_TYPES.Includes(u.kind) ==> RESISTANCE_SELECTION.Includes(u.range))
    && (THERMAL_TYPES.Includes(u.kind) ==> THERMAL_SELECTION.Includes(u.range))
    && (u.kind == OFF ==> RESISTANCE_SELECTION.Includes(u.range) || THERMAL_SELECTION.Includes(u.range))
  }

  predicate SameLabels(u: Channel, w: Channel) {
    w == u.(rangeSelection := w.rangeSelection, coeffSelection := w.coeffSelection)
  }

  /** In the other direction the labels come back except for a deactivated channel whose range is
      thermal range 2 or 3: that number is first listed as a resistance. */
  lemma ChannelPageRoundTrip(u: Channel, i: nat)
    requires i <= 7 && Labelled(u)
    ensures SameLabels(u, ToUiChannel(ToDeviceChannel(u, i), i))
       <==> !(u.kind == OFF && u.range in {Label(ThermalRange, 2), Label(ThermalRange, 3)})
  {
    hide ToUiChannel, ToDeviceChannel, RTD_TABLE;
    DeviceChannelIs(u, i);
    UiChannelIs(ToDeviceChannel(u, i), i);
  }

  // ---------- editing ----------

  datatype Edit =
    | SelectType(t: UiText)
    | SelectRange(t: UiText)
    | SelectCoeff(t: UiText)
    | SelectUnit(t: UiText)
    | SelectSmooth(t: UiText)
    | CheckOverflow(on: bool)
    | CheckUnderflow(on: bool)
    | CheckOpenWire(on: bool)

  predicate OffOrResistor(u: Channel) {
    u.kind == OFF || RESISTOR_TYPES.Includes(u.kind)
  }

  /** The edits the page lets a user make: the entry is enabled and the label is on its list. */
  predicate Enabled(u: Channel, e: Edit) {
    match e
    case SelectType(t) => TYPE_SELECTION.Includes(t)
    case SelectRange(t) => u.kind != OFF && u.rangeSelection.Includes(t)
    case SelectCoeff(t) => !OffOrResistor(u) && u.coeffSelection.Some? && u.coeffSelection.value.Includes(t)
    case SelectUnit(t) => !OffOrResistor(u) && TextIn(t, TempUnit, UNITS)
    case SelectSmooth(t) => u.kind != OFF && TextIn(t, Smooth, QUARTERS)
    case CheckOverflow(_) => u.kind != OFF
    case CheckUnderflow(_) => !OffOrResistor(u)
    case CheckOpenWire(_) => u.kind != OFF
  }

  function WithCoeff(u: Channel): Channel {
    if !THERMAL_TYPES.Includes(u.kind) then u
    else
      match DecideTempCoeff(u.range)
      case None => u.(coeffSelection := None)
      case Some(choice) =>
        u.(coeffSelection := Some(choice.selection),
           coeff := if choice.selection.Includes(u.coeff) then u.coeff else choice.standard)
  }

  function WithRange(u: Channel): Channel {
    if RESISTOR_TYPES.Includes(u.kind) then
      u.(rangeSelection := RESISTANCE_SELECTION,
         range := if RESISTANCE_SELECTION.Includes(u.range) then u.range else Label(ResistanceRange, 1))
    else if THERMAL_TYPES.Includes(u.kind) then
      if THERMAL_SELECTION.Includes(u.range) then u.(rangeSelection := THERMAL_SELECTION)
      else WithCoeff(u.(rangeSelection := THERMAL_SELECTION, range := Label(ThermalRange, 0)))
    else u
  }

  function Handled(u: Channel, e: Edit): Channel {
    match e
    case SelectType(t) => WithRange(u.(kind := t))
    case SelectRange(t) => WithCoeff(u.(range := t))
    case SelectCoeff(t) => u.(coeff := t)
    case SelectUnit(t) => u.(unit := t)
    case SelectSmooth(t) => u.(smooth := t)
    case CheckOverflow(on) => u.(overflow := Flag(on))
    case CheckUnderflow(on) => u.(underflow := Flag(on))
    case CheckOpenWire(on) => u.(openWire := Flag(on))
  }

  /** A check box that has just been disabled is cleared. */
  function Cleared(wasOff: bool, wasOffOrResistor: bool, u: Channel): Channel {
    var off := u.kind == OFF && !wasOff;
    u.(overflow := if off then Flag(false) else u.overflow,
       openWire := if off then Flag(false) else u.openWire,
       underflow := if OffOrResistor(u) && !wasOffOrResistor then Flag(false) else u.underflow)
  }

  function Step(u: Channel, e: Edit): Channel {
    Cleared(u.kind == OFF, OffOrResistor(u), Handled(u, e))
  }

  /** Showing the page clears what is disabled on it. */
  function Mounted(u: Channel): Channel {
    Cleared(false, false, u)
  }

  /** The editor: the channel entries the handlers overwrite in place. */
  class Editor {
    var channels: seq<Channel>

    constructor (page: Page)
      ensures channels == page.channels
    {
      channels := page.channels;
    }

    method UpdateChannelTempCoeff(i: nat)
      requires i < |channels|
      modifies this
      ensures channels == old(channels)[i := WithCoeff(old(channels)[i])]
    {
      hide DecideTempCoeff, THERMAL_TYPES;
      if !THERMAL_TYPES.Includes(channels[i].kind) {
        return;
      }
      var choice := DecideTempCoeff(channels[i].range);
      if choice.None? {
        channels := channels[i := channels[i].(coeffSelection := None)];
        return;
      }
      channels := channels[i := channels[i].(coeffSelection := Some(choice.value.selection))];
      if !choice.value.selection.Includes(channels[i].coeff) {
        channels := channels[i := channels[i].(coeff := choice.value.standard)];
      }
    }

    method UpdateChannelRange(i: nat)
      requires i < |channels|
      modifies this
      ensures channels == old(channels)[i := WithRange(old(channels)[i])]
    {
      hide WithCoeff, TextIn;
      if RESISTOR_TYPES.Includes(channels[i].kind) {
        channels := channels[i := channels[i].(rangeSelection := RESISTANCE_SELECTION)];
        if !RESISTANCE_SELECTION.Includes(channels[i].range) {
          channels := channels[i := channels[i].(range := Label(ResistanceRange, 1))];
        }
      } else if THERMAL_TYPES.Includes(channels[i].kind) {
        channels := channels[i := channels[i].(rangeSelection := THERMAL_SELECTION)];
        if !THERMAL_SELECTION.Includes(channels[i].range) {
          channels := channels[i := channels[i].(range := Label(ThermalRange, 0))];
          UpdateChannelTempCoeff(i);
        }
      }
    }

    /** An entry changes: the new value, the handler of the entry, then the check boxes. */
    method Change(i: nat, e: Edit)
      requires i < |channels| && Enabled(channels[i], e)
      modifies this
      ensures channels == old(channels)[i := Step(old(channels)[i], e)]
    {
      hide WithCoeff, WithRange, TextIn;
      var wasOff, wasOffOrResistor := channels[i].kind == OFF, OffOrResistor(channels[i]);
      match e {
        case SelectType(t) =>
          channels := channels[i := channels[i].(kind := t)];
          UpdateChannelRange(i);
        case SelectRange(t) =>
          channels := channels[i := channels[i].(range := t)];
          UpdateChannelTempCoeff(i);
        case SelectCoeff(t) => channels := channels[i := channels[i].(coeff := t)];
        case SelectUnit(t) => channels := channels[i := channels[i].(unit := t)];
        case SelectSmooth(t) => channels := channels[i := channels[i].(smooth := t)];
        case CheckOverflow(on) => channels := channels[i := channels[i].(overflow := Flag(on))];
        case CheckUnderflow(on) => channels := channels[i := channels[i].(underflow := Flag(on))];
        case CheckOpenWire(on) => channels := channels[i := channels[i].(openWire := Flag(on))];
      }
      if channels[i].kind == OFF && !wasOff {
        channels := channels[i := channels[i].(openWire := Flag(false))];
        channels := channels[i := channels[i].(overflow := Flag(false))];
      }
      if OffOrResistor(channels[i]) && !wasOffOrResistor {
        channels := channels[i := channels[i].(underflow := Flag(false))];
      }
    }
  }

  // ---------- what editing keeps ----------

  /** Range fits type, coefficient fits range, disabled check boxes are clear. A deactivated channel
      keeps what it was: its range may be of either kind. */
  predicate Consistent(u: Channel) {
    && Labelled(u) && u.overflow.Flag? && u.underflow.Flag? && u.openWire.Flag?
    && u.rangeSelection in {RESISTANCE_SELECTION, THERMAL_SELECTION}
    && (OffOrResistor(u) ==> u.underflow == Flag(false))
    && (u.kind == OFF ==> u.overflow == Flag(false) && u.openWire == Flag(false))
    && (RESISTOR_TYPES.Includes(u.kind) ==> u.rangeSelection == RESISTANCE_SELECTION)
    && (THERMAL_TYPES.Includes(u.kind) ==> u.rangeSelection == THERMAL_SELECTION)
    && (THERMAL_SELECTION.Includes(u.range) ==> CoeffConsistent(u))
  }

  /** The offered coefficients are those of the range or, on an imported channel, the first of them. */
  predicate CoeffConsistent(u: Channel) {
    match DecideTempCoeff(u.range)
    case None => false
    case Some(choice) =>
      && choice.selection.Includes(u.coeff)
      && (u.coeffSelection == Some(choice.selection)
          || (u.coeffSelection == CHANNEL_DEFAULT.coeffSelection && choice.selection.Includes(Label(TempCoeff, 0))))
  }

  function Run(u: Channel, es: seq<Edit>): Channel {
    if es == [] then u else Step(Run(u, es[..|es| - 1]), es[|es| - 1])
  }

  predicate Allowed(u: Channel, es: seq<Edit>) {
    es == [] || (Allowed(u, es[..|es| - 1]) && Enabled(Run(u, es[..|es| - 1]), es[|es| - 1]))
  }

  lemma DecideIsTotal(range: UiText)
    requires THERMAL_SELECTION.Includes(range)
    ensures DecideTempCoeff(range).Some?
    ensures var choice := DecideTempCoeff(range).value;
      choice.selection.Includes(choice.standard) && choice.selection.group == TempCoeff
      && choice.selection.codes <= COEFFS
  {
  }

  lemma WithCoeffConsistent(u: Channel)
    requires THERMAL_TYPES.Includes(u.kind) && THERMAL_SELECTION.Includes(u.range)
    ensures CoeffConsistent(WithCoeff(u)) && TextIn(WithCoeff(u).coeff, TempCoeff, COEFFS)
    ensures WithCoeff(u) == u.(coeff := WithCoeff(u).coeff, coeffSelection := WithCoeff(u).coeffSelection)
  {
    hide DecideTempCoeff, THERMAL_TYPES, THERMAL_SELECTION, COEFFS;
    DecideIsTotal(u.range);
  }

  lemma TypesApart(t: UiText)
    ensures TYPE_SELECTION.Includes(t) <==> t == OFF || RESISTOR_TYPES.Includes(t) || THERMAL_TYPES.Includes(t)
    ensures !(RESISTOR_TYPES.Includes(t) && THERMAL_TYPES.Includes(t))
    ensures t == OFF ==> !RESISTOR_TYPES.Includes(t) && !THERMAL_TYPES.Includes(t)
    ensures RESISTANCE_SELECTION.Includes(t) ==> !THERMAL_SELECTION.Includes(t)
  {
  }

  lemma RangeChosen(u: Channel, t: UiText)
    requires Consistent(u) && u.kind != OFF && u.rangeSelection.Includes(t)
    ensures Consistent(WithCoeff(u.(range := t)))
  {
    hide DecideTempCoeff, CoeffConsistent, TextIn, TYPES, COEFFS;
    var w := u.(range := t);
    TypesApart(u.kind);
    TypesApart(t);
    if THERMAL_TYPES.Includes(u.kind) {
      WithCoeffConsistent(w);
    }
  }

  lemma CoeffStays(u: Channel, w: Channel)
    requires CoeffConsistent(u) && w.range == u.range && w.coeff == u.coeff && w.coeffSelection == u.coeffSelection
    ensures CoeffConsistent(w)
  {
  }

  lemma TypeChosen(u: Channel, t: UiText)
    requires Consistent(u) && TYPE_SELECTION.Includes(t)
    ensures Consistent(Cleared(u.kind == OFF, OffOrResistor(u), WithRange(u.(kind := t))))
  {
    hide DecideTempCoeff, CoeffConsistent, WithCoeff, TextIn, TYPES, COEFFS, RESISTANCE_SELECTION, THERMAL_SELECTION;
    var w := WithRange(u.(kind := t));
    TypesApart(u.kind);
    TypesApart(t);
    TypesApart(u.range);
    FirstRanges();
    if THERMAL_TYPES.Includes(t) && !THERMAL_SELECTION.Includes(u.range) {
      var reset := u.(kind := t, rangeSelection := THERMAL_SELECTION, range := Label(ThermalRange, 0));
      WithCoeffConsistent(reset);
      CoeffStays(w, Cleared(u.kind == OFF, OffOrResistor(u), w));
    } else if THERMAL_SELECTION.Includes(w.range) {
      CoeffStays(u, Cleared(u.kind == OFF, OffOrResistor(u), w));
    }
  }

  lemma FirstRanges()
    ensures THERMAL_SELECTION.Includes(Label(ThermalRange, 0))
    ensures RESISTANCE_SELECTION.Includes(Label(ResistanceRange, 1))
    ensures !THERMAL_SELECTION.Includes(Label(ResistanceRange, 1))
  {
  }

  lemma CoeffChosen(u: Channel, t: UiText)
    requires Consistent(u) && Enabled(u, SelectCoeff(t))
    ensures Consistent(u.(coeff := t))
  {
    hide DecideTempCoeff, TYPES, COEFFS, THERMAL_SELECTION, RESISTANCE_SELECTION;
    TypesApart(u.kind);
    DecideIsTotal(u.range);
  }

  lemma StepKeeps(u: Channel, e: Edit)
    requires Consistent(u) && Enabled(u, e)
    ensures Consistent(Step(u, e))
  {
    hide DecideTempCoeff, WithCoeff, WithRange, TYPES, COEFFS, CoeffConsistent, THERMAL_SELECTION,
         RESISTANCE_SELECTION, RESISTOR_TYPES, THERMAL_TYPES, TextIn;
    var w := Step(u, e);
    match e
    case SelectType(t) => TypeChosen(u, t);
    case SelectRange(t) =>
      RangeChosen(u, t);
    case SelectCoeff(t) => CoeffChosen(u, t);
    case _ =>
      if CoeffConsistent(u) { CoeffStays(u, w); }
  }

  /** Whatever a user does on a channel that starts consistent, it stays consistent. */
  lemma {:induction false} RunKeeps(u: Channel, es: seq<Edit>)
    requires Consistent(u) && Allowed(u, es)
    ensures Consistent(Run(u, es))
  {
    hide Consistent, Step, Enabled;
    if es != [] {
      RunKeeps(u, es[..|es| - 1]);
      StepKeeps(Run(u, es[..|es| - 1]), es[|es| - 1]);
    }
  }

  lemma DefaultConsistent()
    ensures Consistent(CHANNEL_DEFAULT)
  {
  }

  lemma CoeffFitsIff(range: UiText, coeff: UiText)
    requires THERMAL_SELECTION.Includes(range) && TextIn(coeff, TempCoeff, COEFFS)
    ensures DecideTempCoeff(range).value.selection.Includes(coeff) <==> CoeffFits(range.code, Num(coeff.code))
  {
  }

  /** A consistent channel is exported as the schema wants it; no field is the error text. */
  lemma ConsistentIsValid(u: Channel, i: nat)
    requires Consistent(u) && i <= 7
    ensures RtdChannelValid(ToDeviceChannel(u, i))
  {
    hide ToDeviceChannel, RTD_TABLE, DecideTempCoeff, CoeffFits;
    DeviceChannelIs(u, i);
    if THERMAL_SELECTION.Includes(u.range) {
      CoeffFitsIff(u.range, u.coeff);
    }
  }

  /** Every run of edits from the default channel exports a channel the schema accepts. */
  lemma EveryRunExportsValid(es: seq<Edit>, i: nat)
    requires Allowed(CHANNEL_DEFAULT, es) && i <= 7
    ensures RtdChannelValid(ToDeviceChannel(Run(CHANNEL_DEFAULT, es), i))
    ensures Consistent(Run(CHANNEL_DEFAULT, es))
  {
    hide Consistent, ToDeviceChannel, RtdChannelValid, CHANNEL_DEFAULT;
    DefaultConsistent();
    RunKeeps(CHANNEL_DEFAULT, es);
    ConsistentIsValid(Run(CHANNEL_DEFAULT, es), i);
  }

  // ---------- the whole page ----------

  predicate RtdNumber(mlfb: string) {
    mlfb == SM1231_4RTD || mlfb == SM1231_8RTD
  }

  predicate PageConsistent(p: Page) {
    && RtdNumber(p.mlfb) && |p.channels| == ChannelNums(p.mlfb)
    && TextIn(p.integTime, IntTime, QUARTERS) && p.powerAlarm.Flag?
    && forall u :: u in p.channels ==> Consistent(u)
  }

  lemma PageDefaultConsistent(mlfb: string)
    requires RtdNumber(mlfb)
    ensures PageConsistent(PageDefault(mlfb))
  {
    hide Consistent;
    DefaultConsistent();
  }

  lemma MountKeeps(u: Channel)
    requires Consistent(u)
    ensures Mounted(u) == u
  {
  }

  lemma PageIsValid(p: Page)
    requires PageConsistent(p)
    ensures SlotValid(ToDevice(p)) && Produce(p.mlfb) == Rtd(ChannelNums(p.mlfb))
  {
    hide Consistent, ToDeviceChannel, RtdChannelValid, RTD_TABLE, UiToYaml;
    RtdTranslates(0);
    assert RStrip(SM1231_4RTD) == SM1231_4RTD && RStrip(SM1231_8RTD) == SM1231_8RTD;
    var b := ToDevice(p).body;
    forall c | c in b.rtd
      ensures RtdChannelValid(c)
    {
      var i :| 0 <= i < |b.rtd| && b.rtd[i] == c;
      ConsistentIsValid(p.channels[i], i);
    }
  }

  // ---------- imported channels ----------

  /** What a user can make of an imported channel without the page noticing: a deactivated channel
      keeps its thermal range when it is activated, with its own coefficient and the single
      coefficient 0 on offer. */
  predicate Harmless(c: RtdChannel) {
    c.kind == Num(0) && !OneOf(c.range, {1, 2, 3}) ==>
      OneOf(c.range, {0, 4, 5, 11, 20, 22}) && CoeffFits(c.range.n, c.temperCoeff)
  }

  lemma ImportConsistent(c: RtdChannel, i: nat)
    requires RtdChannelValid(c) && Harmless(c) && i <= 7
    ensures Consistent(ToUiChannel(c, i))
  {
    hide RTD_TABLE, YamlToUi, DecideTempCoeff, CoeffFits;
    UiChannelIs(c, i);
    var u := ToUiChannel(c, i);
    if THERMAL_SELECTION.Includes(u.range) {
      CoeffFitsIff(u.range, u.coeff);
      FirstCoefficient(u.range);
    }
  }

  lemma FirstCoefficient(range: UiText)
    requires THERMAL_SELECTION.Includes(range)
    ensures DecideTempCoeff(range).Some?
    ensures DecideTempCoeff(range).value.selection.Includes(Label(TempCoeff, 0))
            <==> range.code in {0, 2, 4, 5, 11, 20, 22}
  {
  }

  /** Showing a channel the schema accepts, anew or in place of another, clears nothing. */
  lemma ImportClear(c: RtdChannel, i: nat, wasOff: bool, wasOffOrResistor: bool)
    requires RtdChannelValid(c) && i <= 7
    ensures Cleared(wasOff, wasOffOrResistor, ToUiChannel(c, i)) == ToUiChannel(c, i)
  {
    hide RTD_TABLE, YamlToUi, ToUiChannel, CoeffFits;
    UiChannelIs(c, i);
  }

  lemma PageImported(slot: SlotConfig)
    requires RtdNumber(slot.mlfb) && slot.body.RtdBody? && |slot.body.rtd| == ChannelNums(slot.mlfb)
    requires slot.body.powerAlarm.Flag? && OneOf(slot.body.integTime, {0, 1, 2, 3})
    requires forall c :: c in slot.body.rtd ==> RtdChannelValid(c) && Harmless(c)
    ensures PageConsistent(ToUi(slot))
  {
    hide ToUiChannel, RtdChannelValid, Harmless, Consistent, YamlToUi;
    RtdTranslates(0);
    forall i | 0 <= i < |slot.body.rtd|
      ensures Consistent(ToUi(slot).channels[i])
    {
      assert slot.body.rtd[i] in slot.body.rtd;
      ImportConsistent(slot.body.rtd[i], i);
    }
  }

  const ACTIVATE: seq<Edit> := [SelectType(Label(Type, 7))]
  const ACTIVATE_AND_CHOOSE: seq<Edit> := ACTIVATE + [SelectCoeff(Label(TempCoeff, 0))]

  lemma HarmfulRun(c: RtdChannel, i: nat)
    requires RtdChannelValid(c) && !Harmless(c) && i <= 7
    ensures exists es :: Allowed(ToUiChannel(c, i), es)
              && !RtdChannelValid(ToDeviceChannel(Run(ToUiChannel(c, i), es), i))
  {
    hide RTD_TABLE, YamlToUi, UiToYaml, ToDeviceChannel, DecideTempCoeff, CoeffFits;
    var u := ToUiChannel(c, i);
    UiChannelIs(c, i);
    var active := Step(u, SelectType(Label(Type, 7)));
    ActivateRuns(u);
    DeviceChannelIs(active, i);
    CoeffFitsIff(u.range, u.coeff);
    FirstCoefficient(u.range);
    if CoeffFits(c.range.n, c.temperCoeff) {
      var chosen := Step(active, SelectCoeff(Label(TempCoeff, 0)));
      DeviceChannelIs(chosen, i);
      CoeffFitsIff(u.range, chosen.coeff);
      assert !RtdChannelValid(ToDeviceChannel(Run(u, ACTIVATE_AND_CHOOSE), i));
    } else {
      assert !RtdChannelValid(ToDeviceChannel(Run(u, ACTIVATE), i));
    }
  }

  lemma ActivateRuns(u: Channel)
    requires u.kind == OFF && THERMAL_SELECTION.Includes(u.range) && u.coeffSelection == CHANNEL_DEFAULT.coeffSelection
    ensures Allowed(u, ACTIVATE) && Run(u, ACTIVATE) == Step(u, SelectType(Label(Type, 7)))
    ensures Allowed(u, ACTIVATE_AND_CHOOSE)
    ensures Run(u, ACTIVATE_AND_CHOOSE) == Step(Run(u, ACTIVATE), SelectCoeff(Label(TempCoeff, 0)))
  {
    hide DecideTempCoeff;
    assert ACTIVATE[..0] == [] && ACTIVATE_AND_CHOOSE[..1] == ACTIVATE;
    assert Run(u, []) == u;
  }

  /** Of the channels the schema accepts, exactly the harmless ones stay acceptable whatever is
      edited after an import. */
  lemma ImportedStaysValidIff(c: RtdChannel, i: nat)
    requires RtdChannelValid(c) && i <= 7
    ensures Harmless(c)
       <==> forall es ::
             Allowed(ToUiChannel(c, i), es) ==> RtdChannelValid(ToDeviceChannel(Run(ToUiChannel(c, i), es), i))
  {
    hide RtdChannelValid, ToUiChannel, ToDeviceChannel, Harmless, Allowed, Run, Consistent;
    if Harmless(c) {
      ImportConsistent(c, i);
      forall es | Allowed(ToUiChannel(c, i), es)
        ensures RtdChannelValid(ToDeviceChannel(Run(ToUiChannel(c, i), es), i))
      {
        RunKeeps(ToUiChannel(c, i), es);
        ConsistentIsValid(Run(ToUiChannel(c, i), es), i);
      }
    } else {
      HarmfulRun(c, i);
    }
  }

  /** A channel the schema accepts that one click makes unacceptable. */
  const STALE: RtdChannel := RtdChannel(Num(0), Num(0), Num(5), Num(1), Num(0), Flag(false), Flag(false), Flag(false))

  lemma StaleIsHarmful()
    ensures RtdChannelValid(STALE) && !Harmless(STALE)
  {
  }

  lemma ImportedThenActivated()
    ensures RtdChannelValid(STALE)
    ensures exists es :: Allowed(ToUiChannel(STALE, 0), es)
              && !RtdChannelValid(ToDeviceChannel(Run(ToUiChannel(STALE, 0), es), 0))
  {
    hide RtdChannelValid, ToUiChannel, ToDeviceChannel, Harmless, Allowed, Run, STALE;
    StaleIsHarmful();
    HarmfulRun(STALE, 0);
  }
}
