/** What a user's action on the configuration page changes, and what it leaves alone. */
module Effects {
  import opened Common
  import opened Modules
  import opened EioConfig
  import opened Schema
  import opened TextTables
  import opened SmConfig
  import opened SlotPage
  import D = DigitalPage
  import R = RtdPage
  import A = AiPage
  import M = MeterPage
  import ML = MeterLaws

  // ---------- an RTD channel ----------

  /** The coefficient that goes with a thermal range unless another one is kept. */
  const STANDARD_COEFF: map<int, int> := map[
    0 := 0, 2 := 0, 3 := 9, 4 := 0, 5 := 0, 6 := 9, 11 := 0, 12 := 9, 15 := 12, 16 := 9, 18 := 9,
    20 := 5, 22 := 5, 24 := 11, 26 := 11, 28 := 10]

  /** The coefficient of a channel that comes to thermal range code: its own if the schema allows it
      there, and the standard one otherwise. */
  function CoeffFor(code: int, coeff: UiText): UiText
    requires code in STANDARD_COEFF && coeff.Label?
  {
    if CoeffFits(code, Num(coeff.code)) then coeff else Label(TempCoeff, STANDARD_COEFF[code])
  }

  lemma CoeffChosen(u: R.Channel)
    requires TextIn(u.kind, Type, {7, 8, 9}) && TextIn(u.range, ThermalRange, THERMAL_RANGES)
    requires TextIn(u.coeff, TempCoeff, R.COEFFS)
    ensures u.range.code in STANDARD_COEFF
    ensures R.WithCoeff(u).coeff == CoeffFor(u.range.code, u.coeff)
    ensures R.WithCoeff(u) == u.(coeff := R.WithCoeff(u).coeff, coeffSelection := R.WithCoeff(u).coeffSelection)
  {
    R.CoeffFitsIff(u.range, u.coeff);
  }

  /** Every entry but type and range takes its new value, and nothing else changes. */
  lemma RtdEntry(u: R.Channel, e: R.Edit)
    requires R.Enabled(u, e) && !e.SelectType? && !e.SelectRange?
    ensures e.SelectCoeff? ==> R.Step(u, e) == u.(coeff := e.t)
    ensures e.SelectUnit? ==> R.Step(u, e) == u.(unit := e.t)
    ensures e.SelectSmooth? ==> R.Step(u, e) == u.(smooth := e.t)
    ensures e.CheckOverflow? ==> R.Step(u, e) == u.(overflow := Flag(e.on))
    ensures e.CheckUnderflow? ==> R.Step(u, e) == u.(underflow := Flag(e.on))
    ensures e.CheckOpenWire? ==> R.Step(u, e) == u.(openWire := Flag(e.on))
  {
    hide TextIn;
  }

  /** A new range brings its coefficient along on a thermal channel, and nothing on a resistor. */
  lemma RtdRange(u: R.Channel, t: UiText)
    requires R.Consistent(u) && R.Enabled(u, R.SelectRange(t))
    ensures var w := R.Step(u, R.SelectRange(t));
      && w == u.(range := t, coeff := w.coeff, coeffSelection := w.coeffSelection)
      && (TextIn(u.kind, Type, {4, 5, 6}) ==> w == u.(range := t))
      && (TextIn(u.kind, Type, {7, 8, 9}) ==>
            t.Label? && t.code in STANDARD_COEFF && u.coeff.Label? && w.coeff == CoeffFor(t.code, u.coeff))
  {
    hide R.DecideTempCoeff, R.WithCoeff, R.CoeffConsistent, CoeffFor;
    R.TypesApart(u.kind);
    if TextIn(u.kind, Type, {7, 8, 9}) {
      CoeffChosen(u.(range := t));
    } else {
      ResistorKeeps(u.(range := t));
    }
  }

  lemma ResistorKeeps(u: R.Channel)
    requires TextIn(u.kind, Type, {4, 5, 6})
    ensures R.WithCoeff(u) == u
  {
  }

  /** The range after a new type: kept if it is of the type's family or the channel is deactivated, and
      the family's first one otherwise. */
  function RangeAfter(range: UiText, t: UiText): UiText {
    if TextIn(t, Type, {4, 5, 6}) && !TextIn(range, ResistanceRange, {1, 2, 3}) then Label(ResistanceRange, 1)
    else if TextIn(t, Type, {7, 8, 9}) && !TextIn(range, ThermalRange, THERMAL_RANGES) then Label(ThermalRange, 0)
    else range
  }

  /** A new type takes the range of its family along, clears the boxes it disables, and leaves unit
      and smoothing; the coefficient changes only with the range. */
  lemma RtdType(u: R.Channel, t: UiText)
    requires R.Consistent(u) && R.Enabled(u, R.SelectType(t))
    ensures var w := R.Step(u, R.SelectType(t));
      && w.kind == t && w.range == RangeAfter(u.range, t) && w.unit == u.unit && w.smooth == u.smooth
      && w.coeff == (if TextIn(t, Type, {7, 8, 9}) && w.range != u.range then Label(TempCoeff, 0) else u.coeff)
      && w.overflow == (if t == Label(Type, 0) then Flag(false) else u.overflow)
      && w.openWire == (if t == Label(Type, 0) then Flag(false) else u.openWire)
      && w.underflow == (if TextIn(t, Type, {7, 8, 9}) then u.underflow else Flag(false))
  {
    hide R.DecideTempCoeff, R.WithCoeff, R.CoeffConsistent, CoeffFor;
    R.TypesApart(u.kind);
    R.TypesApart(t);
    var q := u.(kind := t, rangeSelection := R.THERMAL_SELECTION, range := Label(ThermalRange, 0));
    if TextIn(t, Type, {7, 8, 9}) && !TextIn(u.range, ThermalRange, THERMAL_RANGES) {
      CoeffChosen(q);
      ZeroCoeff(u.coeff);
    }
  }

  lemma ZeroCoeff(coeff: UiText)
    requires TextIn(coeff, TempCoeff, R.COEFFS)
    ensures CoeffFor(0, coeff) == Label(TempCoeff, 0)
  {
  }

  // ---------- AI channels ----------

  /** An entry of one AI channel changes that channel alone; the type goes to its pair. */
  lemma AiEntry(us: seq<A.Channel>, i: nat, e: A.Edit)
    requires A.Enabled(us, i, e) && i < |us|
    ensures e.SelectType? ==> i % 2 == 0 && i + 1 < |us|
    ensures var ws := A.Step(us, i, e);
      && (forall j :: 0 <= j < |us| && j != i && !(e.SelectType? && j == i + 1) ==> ws[j] == us[j])
      && (e.SelectSmooth? ==> ws[i] == us[i].(smooth := e.t))
      && (e.CheckOpenWire? ==> ws[i] == us[i].(openWire := Flag(e.on)))
      && (e.CheckOverflow? ==> ws[i] == us[i].(overflow := Flag(e.on)))
      && (e.CheckUnderflow? ==> ws[i] == us[i].(underflow := Flag(e.on)))
      && (e.SelectRange? ==> Ranged(us[i], e.t, ws[i]))
      && (e.SelectType? ==> Typed(us[i], e.t, ws[i]) && Typed(us[i + 1], e.t, ws[i + 1]))
  {
    hide TextIn;
  }

  /** The 4 to 20 mA range clears the underflow alarm, leaving it clears the broken-wire alarm. */
  predicate Ranged(u: A.Channel, t: UiText, w: A.Channel) {
    var had, has := A.LiveZero(u), u.kind == Label(Type, 3) && t == Label(Range, 3);
    w == u.(range := t,
            underflow := if has && !had then Flag(false) else u.underflow,
            openWire := if had && !has then Flag(false) else u.openWire)
  }

  /** A voltage channel starts with range 9, a current channel with range 2. */
  predicate Typed(u: A.Channel, t: UiText, w: A.Channel) {
    && w.kind == t && w.smooth == u.smooth && w.overflow == u.overflow && w.underflow == u.underflow
    && w.range == Label(Range, if t == Label(Type, 1) then 9 else 2)
    && w.rangeSelection == Selection(Range, if t == Label(Type, 1) then {7, 8, 9} else {2, 3})
    && w.openWire == (if A.LiveZero(u) then Flag(false) else u.openWire)
  }

  // ---------- digital pages ----------

  lemma DigitalEntry(p: D.Page, e: D.Edit)
    requires D.Enabled(p, e)
    ensures e.SelectDelay? ==> e.group < |p.delays| && D.Step(p, e) == p.(delays := p.delays[e.group := e.t])
    ensures e.SelectBehavior? ==> D.Step(p, e) == p.(behavior := e.t)
    ensures e.CheckSubstitute? ==> e.channel < |p.substitute|
    ensures e.CheckSubstitute? ==> D.Step(p, e) == p.(substitute := p.substitute[e.channel := Mark(e.on)])
  {
  }

  // ---------- the meter ----------

  /** The nearest number within the limits. */
  function Nearest(v: int, low: int, high: int): int {
    if v < low then low else if high < v then high else v
  }

  /** Every entry of the module but version and connection type takes its new value, and nothing else
      changes. */
  lemma MeterEntry(p: M.Page, e: M.Edit)
    requires |p.channels| == 3 && M.Enabled(p, e)
    ensures e.SelectVariant? ==> M.Step(p, e) == p.(variant := e.t)
    ensures e.SelectRange? ==> M.Step(p, e) == p.(range := e.t)
    ensures e.SelectFreq? ==> M.Step(p, e) == p.(freq := e.t)
    ensures e.SelectPeriod? ==> M.Step(p, e) == p.(period := e.t)
    ensures e.CheckGate? ==> M.Step(p, e) == p.(gate := Flag(e.on))
    ensures e.CheckMinMax? ==> M.Step(p, e) == p.(minMax := Flag(e.on))
    ensures e.CheckDiagLine? ==> M.Step(p, e) == p.(diagLine := Flag(e.on))
    ensures e.SlideLineTol? ==> M.Step(p, e) == p.(lineTol := Num(Nearest(e.v, 1, 50)))
  {
    hide M.Cleared, M.WithVariants, M.OnConType, TextIn;
    ML.SettledNothing(M.Handled(p, e));
  }

  /** The variant after a change of version or connection type: kept if the schema allows it. */
  function VariantAfter(variant: UiText, version: int, conType: int): UiText {
    if TextIn(variant, DataVariant, Variants(version, conType)) then variant else Label(DataVariant, 0xFE)
  }

  lemma VariantIs(p: M.Page)
    requires TextIn(p.version, ModVer, {32, 112}) && TextIn(p.conType, ConType, CON_TYPES)
    ensures M.WithVariants(p).variant == VariantAfter(p.variant, p.version.code, p.conType.code)
    ensures M.WithVariants(p).variantSelection == Selection(DataVariant, Variants(p.version.code, p.conType.code))
    ensures M.WithVariants(p)
         == p.(variant := M.WithVariants(p).variant, variantSelection := M.WithVariants(p).variantSelection)
  {
    hide M.VariantsFor, Variants, TextIn;
    ML.VariantsMatchSchema(p.version, p.conType);
    ML.VariantsTotal(p.version, p.conType);
    StandardVariant(p.version, p.conType);
  }

  lemma StandardVariant(version: UiText, conType: UiText)
    requires TextIn(version, ModVer, {32, 112}) && TextIn(conType, ConType, CON_TYPES)
    ensures M.VariantsFor(version, conType).Some?
    ensures M.VariantsFor(version, conType).value.standard == Label(DataVariant, 0xFE)
  {
    hide M.VARIANTS;
  }

  /** A new version takes menu and variant along, and nothing else. */
  lemma MeterVersion(p: M.Page, t: UiText)
    requires |p.channels| == 3 && M.Enabled(p, M.SelectVersion(t)) && TextIn(p.conType, ConType, CON_TYPES)
    ensures M.Step(p, M.SelectVersion(t)) == p.(
              version := t, variant := VariantAfter(p.variant, t.code, p.conType.code),
              variantSelection := Selection(DataVariant, Variants(t.code, p.conType.code)))
  {
    hide M.Cleared, M.WithVariants, M.OnConType, VariantAfter, Variants;
    VariantIs(p.(version := t));
    ML.SettledNothing(M.Handled(p, M.SelectVersion(t)));
  }

  /** Which channels an entry of channel i reaches: its own, and on the balanced connection all of them
      from channel 0 if the entry is mirrored. */
  predicate Touches(conType: UiText, i: nat, j: nat, mirrored: bool) {
    j == i || (mirrored && conType == Label(ConType, 0x0E) && i == 0)
  }

  function SliderOf(u: M.Channel, s: M.Slider): Value {
    match s
    case TolVal => u.tolVal
    case TolTime => u.tolTime
    case CtPrimary => u.ctPrimary
    case LlCur => u.llCur
    case VtSecond => u.vtSecond
    case VtPrim => u.vtPrim
  }

  function BoxOf(u: M.Channel, b: M.Box): Value {
    match b
    case OverCur => u.overCur
    case OverVol => u.overVol
    case UnderVol => u.underVol
    case LlVol => u.llVol
    case OverCal => u.overCal
    case ActHour => u.actHour
    case EnGate => u.enGate
    case ReCurDir => u.reCurDir
  }

  /** The limits of a slider, and whether the balanced connection mirrors it. */
  function Limits(s: M.Slider): (int, int, bool) {
    match s
    case TolVal => (10, 100, false)
    case TolTime => (0, 60000, false)
    case CtPrimary => (1, 99999, true)
    case LlCur => (2, 250, true)
    case VtSecond => (1, 500, true)
    case VtPrim => (1, 999999, true)
  }

  /** Two channels with the same sliders, boxes and selection apart from those named. */
  predicate SameBut(u: M.Channel, w: M.Channel, sliders: set<M.Slider>, boxes: set<M.Box>) {
    && (forall s: M.Slider :: s !in sliders ==> SliderOf(w, s) == SliderOf(u, s))
    && (forall b: M.Box :: b !in boxes ==> BoxOf(w, b) == BoxOf(u, b))
  }

  /** A moved slider holds the nearest number within its limits on every channel it reaches, and
      nothing else on the page changes. */
  lemma MeterSlider(p: M.Page, i: nat, s: M.Slider, v: int, j: nat)
    requires |p.channels| == 3 && M.Enabled(p, M.Slide(i, s, v)) && j < 3
    ensures var q := M.Step(p, M.Slide(i, s, v));
      && q == p.(channels := q.channels)
      && q.channels[j].ctSecond == p.channels[j].ctSecond && q.channels[j].ctSelection == p.channels[j].ctSelection
      && SameBut(p.channels[j], q.channels[j], {s}, {})
      && SliderOf(q.channels[j], s) == (if Touches(p.conType, i, j, Limits(s).2)
                                        then Num(Nearest(v, Limits(s).0, Limits(s).1))
                                        else SliderOf(p.channels[j], s))
  {
    hide M.Cleared, M.WithVariants, M.OnConType;
    ML.SettledNothing(M.Handled(p, M.Slide(i, s, v)));
  }

  /** The same for a check box, of which the current direction is mirrored. */
  lemma MeterBox(p: M.Page, i: nat, b: M.Box, on: bool, j: nat)
    requires |p.channels| == 3 && M.Enabled(p, M.Check(i, b, on)) && j < 3
    ensures var q := M.Step(p, M.Check(i, b, on));
      && q == p.(channels := q.channels)
      && q.channels[j].ctSecond == p.channels[j].ctSecond && q.channels[j].ctSelection == p.channels[j].ctSelection
      && SameBut(p.channels[j], q.channels[j], {}, {b})
      && BoxOf(q.channels[j], b) == (if Touches(p.conType, i, j, b == M.ReCurDir) then Flag(on)
                                     else BoxOf(p.channels[j], b))
  {
    hide M.Cleared, M.WithVariants, M.OnConType;
    ML.SettledNothing(M.Handled(p, M.Check(i, b, on)));
  }

  /** The same for the secondary current, which is mirrored. */
  lemma MeterCurrent(p: M.Page, i: nat, t: UiText, j: nat)
    requires |p.channels| == 3 && M.Enabled(p, M.SelectCtSecond(i, t)) && j < 3
    ensures var q := M.Step(p, M.SelectCtSecond(i, t));
      && q == p.(channels := q.channels)
      && q.channels[j] == (if Touches(p.conType, i, j, true) then p.channels[j].(ctSecond := t) else p.channels[j])
  {
    hide M.Cleared, M.WithVariants, M.OnConType, TextIn;
    ML.SettledNothing(M.Handled(p, M.SelectCtSecond(i, t)));
  }

  /** isChannelDisabled: the channels a connection type does not use. */
  predicate Unused(conType: UiText, j: nat) {
    || conType == Label(ConType, 0x00)
    || (conType == Label(ConType, 0x0B) && j in {1, 2})
    || (conType == Label(ConType, 0x10) && j == 2)
  }

  /** The channel whose secondary current and mirrored sliders channel j has after the choice of t. */
  function Source(t: UiText, j: nat): nat {
    if t == Label(ConType, 0x0E) then 0 else j
  }

  /** A new connection type takes the variant along; channels that are no longer used lose their boxes;
      the balanced connection copies selection and mirrored sliders from channel 0; three single phases
      leave one secondary current. */
  lemma MeterConnection(p: M.Page, t: UiText, j: nat)
    requires |p.channels| == 3 && M.Enabled(p, M.SelectConType(t)) && TextIn(p.version, ModVer, {32, 112}) && j < 3
    ensures M.Step(p, M.SelectConType(t)).channels[j]
         == ConnectedChannel(p.conType, t, j, p.channels[j], p.channels[Source(t, j)])
    ensures var q := M.Step(p, M.SelectConType(t));
      var off := t == Label(ConType, 0x00) && p.conType != t;
      q == p.(conType := t, channels := q.channels, variant := VariantAfter(p.variant, p.version.code, t.code),
              variantSelection := Selection(DataVariant, Variants(p.version.code, t.code)),
              gate := if off then Flag(false) else p.gate, minMax := if off then Flag(false) else p.minMax,
              diagLine := if off then Flag(false) else p.diagLine)
  {
    hide M.WithVariants, VariantAfter, Variants, TextIn;
    VariantIs(p.(conType := t));
  }

  /** Channel j after the choice, given what it and its source were. */
  function ConnectedChannel(before: UiText, t: UiText, j: nat, u: M.Channel, from: M.Channel): M.Channel {
    var single := t == Label(ConType, 0x0F);
    var unused := Unused(t, j) && !Unused(before, j);
    var follows := t == Label(ConType, 0x0E) && j > 0;
    var clears := (Unused(t, j) || follows) && !Unused(before, j) && !(before == Label(ConType, 0x0E) && j > 0);
    var box := (v: Value) => if unused then Flag(false) else v;
    M.Channel(
      box(u.overCur), box(u.overCal), box(u.llVol), box(u.underVol), box(u.overVol),
      u.tolVal, u.tolTime, from.ctPrimary, box(u.enGate),
      Selection(CtSndCur, if single then {0} else {0, 2}), if single then Label(CtSndCur, 0) else from.ctSecond,
      box(u.actHour), if clears then Flag(false) else from.reCurDir, from.llCur, from.vtSecond, from.vtPrim)
  }

  /** A disabled box keeps its tick if it was disabled before: from the balanced connection straight to a
      single phase, the directions of channels 1 and 2 stay set until the page is shown again. */
  lemma DirectionStays(p: M.Page, j: nat)
    requires |p.channels| == 3 && p.conType == Label(ConType, 0x0E)
    requires j in {1, 2} && p.channels[j].reCurDir == Flag(true)
    ensures var q := M.Step(p, M.SelectConType(Label(ConType, 0x0B)));
      && Unused(q.conType, j) && q.channels[j].reCurDir == Flag(true)
      && M.Mounted(q).channels[j].reCurDir == Flag(false)
  {
    hide M.VariantsFor;
  }

  /** Showing a consistent page clears the current direction of the channels that are not used or
      follow channel 0, the module's boxes if it is deactivated, and nothing else. */
  lemma MeterTab(p: M.Page, j: nat)
    requires ML.Consistent(p) && j < 3
    ensures |p.channels| == 3
    ensures var q := M.Mounted(p);
      var cleared := Unused(p.conType, j) || (p.conType == Label(ConType, 0x0E) && j > 0);
      q.channels[j] == p.channels[j].(reCurDir := if cleared then Flag(false) else p.channels[j].reCurDir)
    ensures var q := M.Mounted(p);
      var off := p.conType == Label(ConType, 0x00);
      q == p.(channels := q.channels, gate := if off then Flag(false) else p.gate,
              minMax := if off then Flag(false) else p.minMax, diagLine := if off then Flag(false) else p.diagLine)
  {
    hide ML.MenuCurrent, ML.VariantSound, ML.ChannelSound;
    ML.ShapeOfSound(p);
    assert ML.ChannelConsistent(p.conType, j, p.channels[j]);
  }

  // ---------- the page ----------

  /** What a chosen module is exported with. */
  function DefaultBody(mlfb: string): Body {
    if mlfb == "6ES7223-1QH32-0XB0" then DefaultDigital(8)
    else if mlfb == "6ES7223-1PL32-0XB0" then DefaultDigital(16)
    else if mlfb == "6ES7231-5PD32-0XB0" then DefaultRtd(4)
    else if mlfb == "6ES7231-5PF32-0XB0" then DefaultRtd(8)
    else if mlfb == "6ES7231-4HD32-0XB0" then DefaultAi(4)
    else if mlfb == "6ES7231-4HF32-0XB0" then DefaultAi(8)
    else if mlfb == "6ES7238-5XA32-0XB0" then
      MeterBody(MeterModule(Num(112), Num(0x0C), Num(0x0A), Flag(false), Num(0), Num(2), Num(10), Flag(false),
                            Flag(false), Num(0xFE)), seq(3, _ => DEFAULT_PHASE))
    else if mlfb == "6ES7221-1BF32-0XB0" then Inputs([Num(3), Num(3)])
    else Plain
  }

  function DefaultDigital(n: nat): Body {
    InputsOutputs(seq(n / 4, _ => Num(3)), Num(2), map i: nat | 0 <= i < n :: DefaultSubstitute(i))
  }

  /** Every output is ticked. */
  function DefaultSubstitute(i: nat): Value {
    Num(1)
  }

  function DefaultRtd(n: nat): Body {
    RtdBody(Num(2), Flag(true), seq(n, _ => RtdChannel(Num(7), Num(0), Num(0), Num(1), Num(0), Flag(true), Flag(true),
                                                       Flag(true))))
  }

  function DefaultAi(n: nat): Body {
    AiBody(Num(2), Flag(true), seq(n, _ => AiChannel(Num(1), Num(9), Num(1), Flag(true), Flag(true), Flag(false))))
  }

  const DEFAULT_PHASE: MeterChannel := MeterChannel(
    Flag(false), Flag(false), Flag(false), Flag(false), Flag(false), Num(100), Num(40000), Num(1), Flag(false),
    Flag(false), Num(0), Flag(false), Num(50), Num(230), Num(230))

  /** The article numbers on the menu, without 'None'. */
  lemma Menu()
    ensures MODULES == {
              "6ES7223-1QH32-0XB0", "6ES7223-1PL32-0XB0", "6ES7231-5PD32-0XB0", "6ES7231-5PF32-0XB0",
              "6ES7231-4HF32-0XB0", "6ES7238-5XA32-0XB0", "6ES7647-0CM00-1AA2", "6ES7231-4HD32-0XB0",
              "6ES7221-1BF32-0XB0"}
  {
  }

  lemma RtdDefault(mlfb: string)
    requires R.RtdNumber(mlfb)
    ensures Shaped(RtdSlot(R.PageDefault(mlfb))) && ExportSlot(RtdSlot(R.PageDefault(mlfb))).mlfb == mlfb
    ensures ExportSlot(RtdSlot(R.PageDefault(mlfb))).body == DefaultRtd(R.ChannelNums(mlfb))
  {
    hide R.ToDeviceChannel, UiToYaml, R.CHANNEL_DEFAULT, R.RTD_TABLE;
    var p := R.PageDefault(mlfb);
    R.RtdTranslates(0);
    forall i | 0 <= i < |p.channels|
      ensures R.ToDeviceChannel(p.channels[i], i) == DefaultRtd(R.ChannelNums(mlfb)).rtd[i]
    {
      RtdDefaultChannel(i);
    }
    assert R.ToDevice(p).body.rtd == DefaultRtd(R.ChannelNums(mlfb)).rtd;
  }

  lemma RtdDefaultChannel(i: nat)
    requires i <= 7
    ensures R.ToDeviceChannel(R.CHANNEL_DEFAULT, i) == DefaultRtd(8).rtd[i]
  {
    hide R.ToDeviceChannel, R.RTD_TABLE;
    R.DeviceChannelIs(R.CHANNEL_DEFAULT, i);
  }

  lemma AiDefault(mlfb: string)
    requires A.AiNumber(mlfb)
    ensures Shaped(AiSlot(A.PageDefault(mlfb))) && ExportSlot(AiSlot(A.PageDefault(mlfb))).mlfb == mlfb
    ensures ExportSlot(AiSlot(A.PageDefault(mlfb))).body == DefaultAi(A.ChannelNums(mlfb))
  {
    hide A.ToDeviceChannel, UiToYaml;
    var p := A.PageDefault(mlfb);
    A.AiTranslates(0);
    forall i | 0 <= i < |p.channels|
      ensures A.ToDeviceChannel(p.channels[i], i) == DefaultAi(A.ChannelNums(mlfb)).ai[i]
    {
      A.DeviceChannelIs(p.channels[i], i);
    }
    assert A.ToDevice(p).body.ai == DefaultAi(A.ChannelNums(mlfb)).ai;
  }

  lemma DigitalDefault(mlfb: string)
    requires D.Sm1223Number(mlfb)
    ensures Shaped(DigitalSlot(D.PageDefault(mlfb))) && ExportSlot(DigitalSlot(D.PageDefault(mlfb))).mlfb == mlfb
    ensures ExportSlot(DigitalSlot(D.PageDefault(mlfb))).body == DefaultDigital(D.Channels(mlfb))
  {
    hide D.ToDevice;
    var p := D.PageDefault(mlfb);
    assert SM1223_AC != SM1223_DC;
    D.HeadKept(p);
    D.DeviceIs(p);
    var b, c := D.ToDevice(p).body, DefaultDigital(D.Channels(mlfb));
    assert b.delays == c.delays && b.substitute == c.substitute;
  }

  lemma MeterDefault()
    ensures Shaped(MeterSlot(M.PAGE_DEFAULT)) && ExportSlot(MeterSlot(M.PAGE_DEFAULT)).mlfb == SM1238
    ensures ExportSlot(MeterSlot(M.PAGE_DEFAULT)).body == DefaultBody(SM1238)
  {
    hide M.ToDevice;
    M.HeadShape(M.PAGE_DEFAULT);
    M.DeviceIs(M.PAGE_DEFAULT);
    var b := M.ToDevice(M.PAGE_DEFAULT).body;
    assert b.phases == DefaultBody(SM1238).phases;
  }

  lemma InputDefault()
    ensures Shaped(InputSlot(D.INPUT_DEFAULT)) && ExportSlot(InputSlot(D.INPUT_DEFAULT)).mlfb == SM1221
    ensures ExportSlot(InputSlot(D.INPUT_DEFAULT)).body == Inputs([Num(3), Num(3)])
  {
    hide UiToYaml;
    D.DigitalTranslates(0);
    D.DigitalTranslates(1);
  }

  /** Every module on the menu puts itself into the slot, with the entries of its default. */
  lemma DefaultShows(mlfb: string)
    requires mlfb in MODULES
    ensures NumberOf(DefaultSlot(mlfb)) == mlfb && Shaped(DefaultSlot(mlfb))
    ensures ExportSlot(DefaultSlot(mlfb)).mlfb == mlfb && ExportSlot(DefaultSlot(mlfb)).body == DefaultBody(mlfb)
  {
    hide ExportSlot, Shaped, D.PageDefault, R.PageDefault, A.PageDefault, M.PAGE_DEFAULT, D.INPUT_DEFAULT, DefaultRtd,
         DefaultAi, DefaultDigital, DEFAULT_PHASE;
    DefaultNumbers(mlfb);
    if R.RtdNumber(mlfb) { RtdDefault(mlfb); }
    else if A.AiNumber(mlfb) { AiDefault(mlfb); }
    else if D.Sm1223Number(mlfb) { DigitalDefault(mlfb); }
    else if mlfb == SM1238 { MeterDefault(); }
    else if mlfb == SM1221 { InputDefault(); }
    else { SensDiShows(); }
  }

  lemma DefaultNumbers(mlfb: string)
    ensures D.PageDefault(mlfb).mlfb == mlfb && R.PageDefault(mlfb).mlfb == mlfb && A.PageDefault(mlfb).mlfb == mlfb
    ensures M.PAGE_DEFAULT.mlfb == SM1238 && D.INPUT_DEFAULT.mlfb == SM1221
  {
  }

  lemma SensDiShows()
    ensures Shaped(SensDiSlot) && ExportSlot(SensDiSlot).mlfb == SM_SENS_DI && ExportSlot(SensDiSlot).body == Plain
  {
  }

  /** Choosing a module puts it, with its default, into the shown slot and touches no other. */
  lemma ChooseShows(s: State, mlfb: string)
    requires Possible(s, Choose(mlfb)) && mlfb in MODULES
    ensures var t := StepPage(s, Choose(mlfb));
      && t == s.(slots := s.slots[s.cur := t.slots[s.cur]])
      && NumberOf(t.slots[s.cur]) == mlfb && Shaped(t.slots[s.cur])
      && ExportSlot(t.slots[s.cur]).mlfb == mlfb && ExportSlot(t.slots[s.cur]).body == DefaultBody(mlfb)
  {
    hide DefaultSlot, MountSlot, ExportSlot, Shaped, NumberOf, DefaultBody, EditEnabled, Import, ConsistentSlot;
    DefaultShows(mlfb);
    DefaultIsConsistent(mlfb);
    DefaultMeter(mlfb);
    MountedDefault(DefaultSlot(mlfb));
    MountKeepsModule(DefaultSlot(mlfb));
  }

  lemma DefaultMeter(mlfb: string)
    ensures DefaultSlot(mlfb).MeterSlot? ==> DefaultSlot(mlfb).meter == M.PAGE_DEFAULT
  {
    hide M.PAGE_DEFAULT;
  }

  /** Nothing is cleared when a consistent slot other than a meter is shown. */
  lemma MountChangesNothing(u: UiSlot)
    requires ConsistentSlot(u) && !u.MeterSlot?
    ensures MountSlot(u) == u
  {
    hide D.Consistent, R.Consistent, A.Consistent, R.Mounted, A.Mounted;
    match u
    case RtdSlot(p) =>
      forall i | 0 <= i < |p.channels|
        ensures R.Mounted(p.channels[i]) == p.channels[i]
      {
        R.MountKeeps(p.channels[i]);
      }
      assert MountSlot(u).rtd.channels == p.channels;
    case AiSlot(p) =>
      forall i | 0 <= i < |p.channels|
        ensures A.Mounted(p.channels[i]) == p.channels[i]
      {
        assert p.channels[i] in p.channels;
        A.MountKeeps(p.channels[i]);
      }
      assert MountSlot(u).ai.channels == p.channels;
    case _ =>
  }

  lemma MountedDefault(u: UiSlot)
    requires ConsistentSlot(u) && (u.MeterSlot? ==> u.meter == M.PAGE_DEFAULT)
    ensures MountSlot(u) == u
  {
    hide ConsistentSlot;
    if u.MeterSlot? {
      DefaultMounts();
    } else {
      MountChangesNothing(u);
    }
  }

  lemma DefaultMounts()
    ensures |M.PAGE_DEFAULT.channels| == 3 && M.Mounted(M.PAGE_DEFAULT) == M.PAGE_DEFAULT
  {
    hide M.VARIANTS;
    assert M.Mounted(M.PAGE_DEFAULT).channels == M.PAGE_DEFAULT.channels;
  }

  /** Choosing 'None' empties the shown slot and all behind it, and touches none before it. */
  lemma ChooseNone(s: State)
    requires Possible(s, Choose("None"))
    ensures var t := StepPage(s, Choose("None"));
      && t.cur == s.cur && |t.slots| == 6
      && (forall i :: 0 <= i < s.cur ==> t.slots[i] == s.slots[i])
      && (forall i :: s.cur <= i < 6 ==> t.slots[i] == NoneSlot)
  {
    hide Import, EditEnabled;
    DefaultIsConsistent("None");
  }

  /** Choosing a tab shows it. No other slot changes, and the shown one only loses disabled ticks: its
      module and, if it was consistent and no meter, all its entries stay. */
  lemma TabShows(s: State, i: nat)
    requires Possible(s, SelectTab(i))
    ensures var t := StepPage(s, SelectTab(i));
      && i < 6 && t == State(i, s.slots[i := t.slots[i]]) && NumberOf(t.slots[i]) == NumberOf(s.slots[i])
      && (ConsistentSlot(s.slots[i]) && !s.slots[i].MeterSlot? ==> t.slots[i] == s.slots[i])
  {
    hide Import, EditEnabled, ConsistentSlot;
    if ConsistentSlot(s.slots[i]) && !s.slots[i].MeterSlot? {
      MountChangesNothing(s.slots[i]);
    }
  }

  /** An edit changes the shown slot only, and never its module. */
  lemma EditStays(s: State, e: SlotEdit)
    requires Possible(s, Edit(e))
    ensures var t := StepPage(s, Edit(e));
      t == s.(slots := s.slots[s.cur := t.slots[s.cur]]) && NumberOf(t.slots[s.cur]) == NumberOf(s.slots[s.cur])
  {
    hide Import, R.Step, A.Step, R.Enabled, A.Enabled, M.Enabled, D.Enabled, TextIn, M.Handled, M.Cleared;
    if e.OnMeter? { MeterNumberStays(s.slots[s.cur].meter, e.meterEdit); }
  }

  lemma MeterNumberStays(p: M.Page, e: M.Edit)
    requires |p.channels| == 3
    ensures M.Step(p, e).mlfb == p.mlfb
  {
    hide M.VariantsFor;
  }

  function EditedChannels(us: seq<R.Channel>, i: nat, e: R.Edit): seq<R.Channel>
    requires i < |us|
  {
    us[i := R.Step(us[i], e)]
  }

  /** Within the slot an edit reaches the entry it names: one channel of an RTD page, the channels of an
      AI page as AiEntry says, one delay, or one entry of the whole module. */
  lemma EditReaches(u: UiSlot, e: SlotEdit)
    requires EditEnabled(u, e)
    ensures e.OnRtd? ==> u.RtdSlot? && e.i < |u.rtd.channels|
    ensures e.OnRtd? ==> EditSlot(u, e) == RtdSlot(u.rtd.(channels := EditedChannels(u.rtd.channels, e.i, e.rtdEdit)))
    ensures e.OnAi? ==> A.Enabled(u.ai.channels, e.i, e.aiEdit)
    ensures e.OnAi? ==> EditSlot(u, e) == AiSlot(u.ai.(channels := A.Step(u.ai.channels, e.i, e.aiEdit)))
    ensures e.OnInput? ==> EditSlot(u, e) == InputSlot(u.input.(delays := u.input.delays[e.group := e.t]))
    ensures e.SelectIntegTime? && u.RtdSlot? ==> EditSlot(u, e) == RtdSlot(u.rtd.(integTime := e.t))
    ensures e.SelectIntegTime? && u.AiSlot? ==> EditSlot(u, e) == AiSlot(u.ai.(integTime := e.t))
    ensures e.CheckPower? && u.RtdSlot? ==> EditSlot(u, e) == RtdSlot(u.rtd.(powerAlarm := Flag(e.on)))
    ensures e.CheckPower? && u.AiSlot? ==> EditSlot(u, e) == AiSlot(u.ai.(powerAlarm := Flag(e.on)))
  {
    hide R.Step, A.Step, R.Enabled, A.Enabled, TextIn;
  }

  // ---------- what is offered ----------

  /** The tabs and modules a user can choose: every other tab behind a filled slot, and every other entry
      of the menu. */
  lemma PageOffers(s: State, i: nat, mlfb: string)
    requires Sized(s) && AllShaped(s.slots)
    ensures Possible(s, SelectTab(i)) <==> i < 6 && i != s.cur && (i == 0 || NumberOf(s.slots[i - 1]) != "None")
    ensures Possible(s, Choose(mlfb)) <==> (mlfb in MODULES || mlfb == "None") && mlfb != NumberOf(s.slots[s.cur])
  {
    hide EditEnabled, NumberOf, Shaped;
    if 0 < i < 6 {
      NoneIsNone(s.slots[i - 1]);
    }
  }

  lemma NoneIsNone(u: UiSlot)
    requires Shaped(u)
    ensures NumberOf(u) == "None" <==> u.NoneSlot?
  {
    assert |"None"| == 4 && |SM1221| == 18 && |SM1238| == 18 && |SM_SENS_DI| == 18;
  }

  /** The entries of a whole module: integration time and power alarm of an analog one, delays of an
      SM1221. */
  lemma SlotOffers(u: UiSlot, t: UiText, on: bool, g: nat)
    ensures EditEnabled(u, SelectIntegTime(t)) <==> (u.RtdSlot? || u.AiSlot?) && TextIn(t, IntTime, {0, 1, 2, 3})
    ensures EditEnabled(u, CheckPower(on)) <==> u.RtdSlot? || u.AiSlot?
    ensures EditEnabled(u, OnInput(g, t))
       <==> u.InputSlot? && g < |u.input.delays| && TextIn(t, Time, {2, 3, 4, 5, 6, 7, 9})
  {
  }

  /** The edits of a page are those of the slot that shows it. */
  lemma PageEdits(u: UiSlot, i: nat, r: R.Edit, a: A.Edit, d: D.Edit, m: M.Edit)
    requires Shaped(u)
    ensures u.RtdSlot? ==> (EditEnabled(u, OnRtd(i, r)) <==> i < |u.rtd.channels| && R.Enabled(u.rtd.channels[i], r))
    ensures u.AiSlot? ==> (EditEnabled(u, OnAi(i, a)) <==> A.Enabled(u.ai.channels, i, a))
    ensures u.DigitalSlot? ==> (EditEnabled(u, OnDigital(d)) <==> D.Enabled(u.digital, d))
    ensures u.MeterSlot? ==> (EditEnabled(u, OnMeter(m)) <==> M.Enabled(u.meter, m))
  {
    hide R.Enabled, A.Enabled, D.Enabled, M.Enabled;
  }
}
