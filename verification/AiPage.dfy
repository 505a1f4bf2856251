/** The SM1231 AI page: its label tables, the translation between page and device, and the editor
    that keeps the two channels of a pair on the same measurement type. */
module AiPage {
  import opened Common
  import opened Modules
  import opened TextTables
  import opened Schema

  // ---------- label tables ----------

  const TYPES: set<int> := {1, 3}
  const RANGES: set<int> := {2, 3, 7, 8, 9}
  const QUARTERS: set<int> := {0, 1, 2, 3}

  const TYPE_LIST: seq<int> := [1, 3]
  const RANGE_LIST: seq<int> := [2, 3, 7, 8, 9]
  const QUARTER_LIST: seq<int> := [0, 1, 2, 3]

  const AI_TABLE: Table := [
    Item([ChannelWord(7, TypeName)], [Rule(ALL, Codes(Type, TYPE_LIST))]),
    Item([ChannelWord(7, RangeName)], [Rule(ALL, Codes(Range, RANGE_LIST))]),
    Item([Word(IntegTimeName)], [Rule(ALL, Codes(IntTime, QUARTER_LIST))]),
    Item([ChannelWord(7, SmoothName)], [Rule(ALL, Codes(Smooth, QUARTER_LIST))])]

  lemma Lists()
    ensures Members(TYPE_LIST) == TYPES && Members(RANGE_LIST) == RANGES && Members(QUARTER_LIST) == QUARTERS
  {
  }

  lemma OnlyItems(i: nat)
    requires i <= 7
    ensures OnlyItem(AI_TABLE, 0, 0, OfChannel(i, TypeName))
    ensures OnlyItem(AI_TABLE, 1, 0, OfChannel(i, RangeName))
    ensures OnlyItem(AI_TABLE, 2, 0, Whole(IntegTimeName))
    ensures OnlyItem(AI_TABLE, 3, 0, OfChannel(i, SmoothName))
  {
    hide Codes, TYPE_LIST, RANGE_LIST, QUARTER_LIST;
  }

  lemma AiTranslates(i: nat)
    requires i <= 7
    ensures Translates(AI_TABLE, OfChannel(i, TypeName), ALL, Type, TYPES)
    ensures Translates(AI_TABLE, OfChannel(i, RangeName), ALL, Range, RANGES)
    ensures Translates(AI_TABLE, Whole(IntegTimeName), ALL, IntTime, QUARTERS)
    ensures Translates(AI_TABLE, OfChannel(i, SmoothName), ALL, Smooth, QUARTERS)
  {
    hide Translates, OnlyItem, Codes, Members, TYPE_LIST, RANGE_LIST, QUARTER_LIST;
    Lists();
    OnlyItems(i);
    KeyTranslates(AI_TABLE, 0, 0, OfChannel(i, TypeName), AI_TABLE[0].rules[0], Type, TYPE_LIST, TYPES);
    KeyTranslates(AI_TABLE, 1, 0, OfChannel(i, RangeName), AI_TABLE[1].rules[0], Range, RANGE_LIST, RANGES);
    KeyTranslates(AI_TABLE, 2, 0, Whole(IntegTimeName), AI_TABLE[2].rules[0], IntTime, QUARTER_LIST, QUARTERS);
    KeyTranslates(AI_TABLE, 3, 0, OfChannel(i, SmoothName), AI_TABLE[3].rules[0], Smooth, QUARTER_LIST, QUARTERS);
  }

  // ---------- the page ----------

  const VOLTAGE: UiText := Label(Type, 1)
  const CURRENT: UiText := Label(Type, 3)
  const VOLTAGE_RANGES: Selection := Selection(Range, {7, 8, 9})
  const CURRENT_RANGES: Selection := Selection(Range, {2, 3})

  datatype Channel = Channel(
    kind: UiText, rangeSelection: Selection, range: UiText, smooth: UiText,
    openWire: Value, overflow: Value, underflow: Value)

  datatype Page = Page(mlfb: string, powerAlarm: Value, integTime: UiText, channels: seq<Channel>)

  const CHANNEL_DEFAULT: Channel :=
    Channel(VOLTAGE, VOLTAGE_RANGES, Label(Range, 9), Label(Smooth, 1), Flag(false), Flag(true), Flag(true))

  function ChannelNums(mlfb: string): nat {
    if mlfb == SM1231_4AI then 4 else 8
  }

  function PageDefault(mlfb: string): Page {
    Page(mlfb, Flag(true), Label(IntTime, 2), seq(ChannelNums(mlfb), _ => CHANNEL_DEFAULT))
  }

  function RangesOf(kind: UiText): Selection {
    if kind == VOLTAGE then VOLTAGE_RANGES else CURRENT_RANGES
  }

  // ---------- the two translations ----------

  function ToUiChannel(c: AiChannel, i: nat): Channel {
    var kind := YamlToUi(AI_TABLE, OfChannel(i, TypeName), c.kind, ALL);
    Channel(
      kind, RangesOf(kind),
      YamlToUi(AI_TABLE, OfChannel(i, RangeName), c.range, ALL),
      YamlToUi(AI_TABLE, OfChannel(i, SmoothName), c.smooth, ALL),
      c.openWireAlarm, c.overflowAlarm, c.underflowAlarm)
  }

  function ToUi(slot: SlotConfig): Page
    requires slot.body.AiBody? && |slot.body.ai| == ChannelNums(slot.mlfb)
  {
    var b := slot.body;
    Page(slot.mlfb, b.powerAlarm, YamlToUi(AI_TABLE, Whole(IntegTimeName), b.integTime, ALL),
         seq(|b.ai|, i requires 0 <= i < |b.ai| => ToUiChannel(b.ai[i], i)))
  }

  method ConvertToUiFormat(slot: SlotConfig) returns (page: Page)
    requires slot.body.AiBody? && |slot.body.ai| == ChannelNums(slot.mlfb)
    ensures page == ToUi(slot)
  {
    hide YamlToUi;
    var b := slot.body;
    var integTime := YamlToUi(AI_TABLE, Whole(IntegTimeName), b.integTime, ALL);
    var channels: seq<Channel> := [];
    for i := 0 to ChannelNums(slot.mlfb)
      invariant |channels| == i
      invariant forall j :: 0 <= j < i ==> channels[j] == ToUiChannel(b.ai[j], j)
    {
      var ch := CHANNEL_DEFAULT.(
        kind := YamlToUi(AI_TABLE, OfChannel(i, TypeName), b.ai[i].kind, ALL),
        range := YamlToUi(AI_TABLE, OfChannel(i, RangeName), b.ai[i].range, ALL));
      if ch.kind == VOLTAGE {
        ch := ch.(rangeSelection := VOLTAGE_RANGES);
      } else {
        ch := ch.(rangeSelection := CURRENT_RANGES);
      }
      ch := ch.(
        smooth := YamlToUi(AI_TABLE, OfChannel(i, SmoothName), b.ai[i].smooth, ALL),
        openWire := b.ai[i].openWireAlarm, overflow := b.ai[i].overflowAlarm, underflow := b.ai[i].underflowAlarm);
      channels := channels + [ch];
    }
    assert channels == ToUi(slot).channels;
    page := Page(slot.mlfb, b.powerAlarm, integTime, channels);
  }

  function ToDeviceChannel(u: Channel, i: nat): AiChannel {
    AiChannel(
      UiToYaml(AI_TABLE, OfChannel(i, TypeName), u.kind, ALL),
      UiToYaml(AI_TABLE, OfChannel(i, RangeName), u.range, ALL),
      UiToYaml(AI_TABLE, OfChannel(i, SmoothName), u.smooth, ALL),
      u.overflow, u.underflow, u.openWire)
  }

  function Description(mlfb: string): string {
    if ChannelNums(mlfb) == 4 then "Analog input module AI4 x 13 bits" else "Analog input module AI8 x 13 bits"
  }

  function ToDevice(page: Page): SlotConfig
    requires |page.channels| == ChannelNums(page.mlfb)
  {
    SlotConfig(Description(page.mlfb), page.mlfb,
               AiBody(UiToYaml(AI_TABLE, Whole(IntegTimeName), page.integTime, ALL), page.powerAlarm,
                      seq(|page.channels|, i requires 0 <= i < |page.channels| =>
                        ToDeviceChannel(page.channels[i], i))))
  }

  method ConvertToDeviceFormat(page: Page) returns (slot: SlotConfig)
    requires |page.channels| == ChannelNums(page.mlfb)
    ensures slot == ToDevice(page)
  {
    hide UiToYaml;
    var integTime := UiToYaml(AI_TABLE, Whole(IntegTimeName), page.integTime, ALL);
    var ai: seq<AiChannel> := [];
    for i := 0 to ChannelNums(page.mlfb)
      invariant |ai| == i
      invariant forall j :: 0 <= j < i ==> ai[j] == ToDeviceChannel(page.channels[j], j)
    {
      var u := page.channels[i];
      ai := ai + [AiChannel(
                    UiToYaml(AI_TABLE, OfChannel(i, TypeName), u.kind, ALL),
                    UiToYaml(AI_TABLE, OfChannel(i, RangeName), u.range, ALL),
                    UiToYaml(AI_TABLE, OfChannel(i, SmoothName), u.smooth, ALL),
                    u.overflow, u.underflow, u.openWire)];
    }
    assert ai == ToDevice(page).body.ai;
    slot := SlotConfig(Description(page.mlfb), page.mlfb, AiBody(integTime, page.powerAlarm, ai));
  }

  lemma DeviceChannelIs(u: Channel, i: nat)
    requires i <= 7
    ensures ToDeviceChannel(u, i) == AiChannel(
              Read(u.kind, Type, TYPES), Read(u.range, Range, RANGES), Read(u.smooth, Smooth, QUARTERS),
              u.overflow, u.underflow, u.openWire)
  {
    hide UiToYaml, AI_TABLE;
    AiTranslates(i);
  }

  lemma UiChannelIs(c: AiChannel, i: nat)
    requires i <= 7
    ensures var kind := Show(c.kind, Type, TYPES);
      ToUiChannel(c, i) == Channel(
        kind, RangesOf(kind), Show(c.range, Range, RANGES), Show(c.smooth, Smooth, QUARTERS),
        c.openWireAlarm, c.overflowAlarm, c.underflowAlarm)
  {
    hide YamlToUi, AI_TABLE;
    AiTranslates(i);
  }

  predicate ChannelKept(c: AiChannel) {
    Kept(c.kind, TYPES) && Kept(c.range, RANGES) && Kept(c.smooth, QUARTERS)
  }

  /** Importing a device channel and exporting it again gives it back exactly when its numbers are
      listed (or are the error text already). */
  lemma ChannelDeviceRoundTrip(c: AiChannel, i: nat)
    requires i <= 7
    ensures ToDeviceChannel(ToUiChannel(c, i), i) == c <==> ChannelKept(c)
  {
    hide ToUiChannel, ToDeviceChannel, AI_TABLE;
    UiChannelIs(c, i);
    DeviceChannelIs(ToUiChannel(c, i), i);
  }

  /** The same for a whole module. */
  lemma DeviceRoundTrip(slot: SlotConfig)
    requires slot.body.AiBody? && |slot.body.ai| == ChannelNums(slot.mlfb)
    ensures ToDevice(ToUi(slot)).body == slot.body
       <==> Kept(slot.body.integTime, QUARTERS) && forall c :: c in slot.body.ai ==> ChannelKept(c)
  {
    hide ToUiChannel, ToDeviceChannel, AI_TABLE, ChannelKept, Kept, YamlToUi, UiToYaml;
    var b, d := slot.body, ToDevice(ToUi(slot)).body;
    AiTranslates(0);
    ShownAndRead(b.integTime, IntTime, QUARTERS);
    forall i | 0 <= i < |b.ai|
      ensures d.ai[i] == b.ai[i] <==> ChannelKept(b.ai[i])
    {
      ChannelDeviceRoundTrip(b.ai[i], i);
    }
    if forall c :: c in b.ai ==> ChannelKept(c) {
      assert d.ai == b.ai;
    }
    if d == b {
      forall c | c in b.ai
        ensures ChannelKept(c)
      {
        var i :| 0 <= i < |b.ai| && b.ai[i] == c;
        assert d.ai[i] == b.ai[i];
      }
    }
  }

  predicate Labelled(u: Channel) {
    TextIn(u.kind, Type, TYPES) && TextIn(u.range, Range, RANGES) && TextIn(u.smooth, Smooth, QUARTERS)
  }

  /** Exporting a labelled channel and importing it again gives every entry back; only the list of
      ranges is recomputed. */
  lemma ChannelPageRoundTrip(u: Channel, i: nat)
    requires i <= 7 && Labelled(u)
    ensures ToUiChannel(ToDeviceChannel(u, i), i) == u.(rangeSelection := RangesOf(u.kind))
  {
    hide ToUiChannel, ToDeviceChannel, AI_TABLE;
    DeviceChannelIs(u, i);
    UiChannelIs(ToDeviceChannel(u, i), i);
  }

  // ---------- editing ----------

  datatype Edit =
    | SelectType(t: UiText)
    | SelectRange(t: UiText)
    | SelectSmooth(t: UiText)
    | CheckOpenWire(on: bool)
    | CheckOverflow(on: bool)
    | CheckUnderflow(on: bool)

  /** The 4 to 20 mA range, the only one with a live zero. */
  predicate LiveZero(u: Channel) {
    u.kind == CURRENT && u.range == Label(Range, 3)
  }

  predicate Enabled(us: seq<Channel>, i: nat, e: Edit) {
    i < |us| &&
    match e
    case SelectType(t) => i % 2 == 0 && i + 1 < |us| && TextIn(t, Type, TYPES)
    case SelectRange(t) => us[i].rangeSelection.Includes(t)
    case SelectSmooth(t) => TextIn(t, Smooth, QUARTERS)
    case CheckOpenWire(_) => LiveZero(us[i])
    case CheckOverflow(_) => true
    case CheckUnderflow(_) => !LiveZero(us[i])
  }

  function WithType(u: Channel, t: UiText): Channel {
    u.(kind := t, rangeSelection := RangesOf(t), range := if t == VOLTAGE then Label(Range, 9) else Label(Range, 2))
  }

  /** The handlers; a new type goes to the channel and to the one bound to it. */
  function Handled(us: seq<Channel>, i: nat, e: Edit): (ws: seq<Channel>)
    requires i < |us| && (e.SelectType? ==> i + 1 < |us|)
    ensures |ws| == |us|
  {
    match e
    case SelectType(t) => us[i := WithType(us[i], t)][i + 1 := WithType(us[i + 1], t)]
    case SelectRange(t) => us[i := us[i].(range := t)]
    case SelectSmooth(t) => us[i := us[i].(smooth := t)]
    case CheckOpenWire(on) => us[i := us[i].(openWire := Flag(on))]
    case CheckOverflow(on) => us[i := us[i].(overflow := Flag(on))]
    case CheckUnderflow(on) => us[i := us[i].(underflow := Flag(on))]
  }

  /** Check boxes that have just been disabled are cleared: broken wire without a live zero,
      underflow with it. */
  function Cleared(before: Channel, after: Channel): Channel {
    after.(openWire := if LiveZero(before) && !LiveZero(after) then Flag(false) else after.openWire,
           underflow := if !LiveZero(before) && LiveZero(after) then Flag(false) else after.underflow)
  }

  function Mounted(u: Channel): Channel {
    if LiveZero(u) then u.(underflow := Flag(false)) else u.(openWire := Flag(false))
  }

  function Step(us: seq<Channel>, i: nat, e: Edit): (ws: seq<Channel>)
    requires i < |us| && (e.SelectType? ==> i + 1 < |us|)
    ensures |ws| == |us|
  {
    var ws := Handled(us, i, e);
    seq(|us|, j requires 0 <= j < |us| => Cleared(us[j], ws[j]))
  }

  class Editor {
    var channels: seq<Channel>

    constructor (page: Page)
      ensures channels == page.channels
    {
      channels := page.channels;
    }

    method SetChannelRange(i: nat)
      requires i + 1 < |channels|
      modifies this
      ensures channels == old(channels)[i := WithType(old(channels)[i], old(channels)[i].kind)]
                                       [i + 1 := WithType(old(channels)[i + 1], old(channels)[i].kind)]
    {
      var newType := channels[i].kind;
      var newRangeSelection, newRange := CURRENT_RANGES, Label(Range, 2);
      if newType == VOLTAGE {
        newRangeSelection, newRange := VOLTAGE_RANGES, Label(Range, 9);
      }
      channels := channels[i := channels[i].(rangeSelection := newRangeSelection, range := newRange)];
      channels := channels[i + 1 := channels[i + 1].(kind := newType)];
      channels := channels[i + 1 := channels[i + 1].(rangeSelection := newRangeSelection, range := newRange)];
    }

    method Change(i: nat, e: Edit)
      requires Enabled(channels, i, e)
      modifies this
      ensures channels == Step(old(channels), i, e)
    {
      hide TextIn;
      ghost var before := channels;
      var liveZeros := seq(|channels|, j requires 0 <= j < |channels| reads this => LiveZero(channels[j]));
      match e {
        case SelectType(t) =>
          channels := channels[i := channels[i].(kind := t)];
          SetChannelRange(i);
          assert channels == Handled(before, i, e);
        case SelectRange(t) => channels := channels[i := channels[i].(range := t)];
        case SelectSmooth(t) => channels := channels[i := channels[i].(smooth := t)];
        case CheckOpenWire(on) => channels := channels[i := channels[i].(openWire := Flag(on))];
        case CheckOverflow(on) => channels := channels[i := channels[i].(overflow := Flag(on))];
        case CheckUnderflow(on) => channels := channels[i := channels[i].(underflow := Flag(on))];
      }
      ghost var handled := channels;
      for j := 0 to |channels|
        invariant |channels| == |before|
        invariant forall k :: 0 <= k < j ==> channels[k] == Cleared(before[k], handled[k])
        invariant forall k :: j <= k < |channels| ==> channels[k] == handled[k]
      {
        if liveZeros[j] && !LiveZero(channels[j]) {
          channels := channels[j := channels[j].(openWire := Flag(false))];
        } else if !liveZeros[j] && LiveZero(channels[j]) {
          channels := channels[j := channels[j].(underflow := Flag(false))];
        }
      }
    }
  }

  // ---------- what editing keeps ----------

  predicate Consistent(u: Channel) {
    && TextIn(u.kind, Type, TYPES) && TextIn(u.smooth, Smooth, QUARTERS)
    && u.rangeSelection == RangesOf(u.kind) && u.rangeSelection.Includes(u.range)
    && u.openWire.Flag? && u.overflow.Flag? && u.underflow.Flag?
    && if LiveZero(u) then u.underflow == Flag(false) else u.openWire == Flag(false)
  }

  ghost predicate Paired(us: seq<Channel>) {
    forall j :: 0 <= j < |us| - 1 && j % 2 == 0 ==> us[j].kind == us[j + 1].kind
  }

  ghost predicate EachConsistent(us: seq<Channel>) {
    |us| % 2 == 0 && forall u :: u in us ==> Consistent(u)
  }

  ghost predicate AllConsistent(us: seq<Channel>) {
    EachConsistent(us) && Paired(us)
  }

  lemma TypeConsistent(u: Channel, t: UiText)
    requires Consistent(u) && TextIn(t, Type, TYPES)
    ensures Consistent(Cleared(u, WithType(u, t)))
  {
  }

  lemma OneKeeps(u: Channel, e: Edit)
    requires Consistent(u) && !e.SelectType? && Enabled([u], 0, e)
    ensures Consistent(Cleared(u, Handled([u], 0, e)[0])) && Handled([u], 0, e)[0].kind == u.kind
  {
  }

  /** Channels stay consistent and pairs paired, whatever enabled entry is changed. */
  lemma StepKeeps(us: seq<Channel>, i: nat, e: Edit)
    requires EachConsistent(us) && Enabled(us, i, e)
    ensures EachConsistent(Step(us, i, e))
    ensures Paired(us) ==> Paired(Step(us, i, e))
  {
    hide Consistent, WithType, RangesOf;
    var ws := Step(us, i, e);
    forall j | 0 <= j < |us|
      ensures Consistent(ws[j])
      ensures e.SelectType? && (j == i || j == i + 1) ==> ws[j].kind == e.t
      ensures !(e.SelectType? && (j == i || j == i + 1)) ==> ws[j].kind == us[j].kind
    {
      if e.SelectType? && (j == i || j == i + 1) {
        TypeConsistent(us[j], e.t);
        TypeSet(us[j], e.t);
      } else if j == i {
        OneKeeps(us[i], e);
      }
    }
  }

  lemma TypeSet(u: Channel, t: UiText)
    ensures WithType(u, t).kind == t
  {
  }

  datatype Change = Change(index: nat, edit: Edit)

  /** The page after a run of edits, if every one of them was possible when it was made. */
  function Run(us: seq<Channel>, es: seq<Change>): Option<seq<Channel>> {
    if es == [] then Some(us)
    else
      match Run(us, es[..|es| - 1])
      case None => None
      case Some(ws) =>
        var last := es[|es| - 1];
        if Enabled(ws, last.index, last.edit) then Some(Step(ws, last.index, last.edit)) else None
  }

  lemma {:induction false} RunKeeps(us: seq<Channel>, es: seq<Change>)
    requires EachConsistent(us) && Run(us, es).Some?
    ensures EachConsistent(Run(us, es).value) && |Run(us, es).value| == |us|
    ensures Paired(us) ==> Paired(Run(us, es).value)
  {
    hide EachConsistent, Paired, Enabled, Step;
    if es != [] {
      RunKeeps(us, es[..|es| - 1]);
      var last := es[|es| - 1];
      StepKeeps(Run(us, es[..|es| - 1]).value, last.index, last.edit);
    }
  }

  lemma DefaultConsistent(mlfb: string)
    ensures AllConsistent(PageDefault(mlfb).channels)
  {
  }

  /** A consistent channel is exported as the schema wants it. */
  lemma ConsistentIsValid(u: Channel, i: nat)
    requires Consistent(u) && i <= 7
    ensures AiChannelValid(ToDeviceChannel(u, i))
    ensures u.kind.Label? && ToDeviceChannel(u, i).kind == Num(u.kind.code)
  {
    hide ToDeviceChannel, AI_TABLE;
    DeviceChannelIs(u, i);
  }

  /** Every channel the schema accepts is consistent once the page has been newly shown. */
  lemma ImportConsistent(c: AiChannel, i: nat)
    requires AiChannelValid(c) && i <= 7
    ensures Consistent(Mounted(ToUiChannel(c, i))) && Mounted(ToUiChannel(c, i)).kind == Label(Type, c.kind.n)
  {
    hide ToUiChannel, AI_TABLE;
    UiChannelIs(c, i);
  }

  lemma MountKeeps(u: Channel)
    requires Consistent(u)
    ensures Mounted(u) == u
  {
  }

  /** Every run of edits from a consistent page, such as the default one, exports channels the schema
      accepts; types that agree in each pair go on doing so. */
  lemma EveryRunExportsValid(us: seq<Channel>, es: seq<Change>)
    requires EachConsistent(us) && |us| <= 8 && Run(us, es).Some?
    ensures forall i :: 0 <= i < |Run(us, es).value| ==> AiChannelValid(ToDeviceChannel(Run(us, es).value[i], i))
    ensures Paired(us) ==> PairsExported(Run(us, es).value)
  {
    hide Consistent, ToDeviceChannel, AiChannelValid, Run;
    RunKeeps(us, es);
    var ws := Run(us, es).value;
    forall i | 0 <= i < |ws|
      ensures AiChannelValid(ToDeviceChannel(ws[i], i))
      ensures ws[i].kind.Label? && ToDeviceChannel(ws[i], i).kind == Num(ws[i].kind.code)
    {
      assert ws[i] in ws;
      ConsistentIsValid(ws[i], i);
    }
  }

  ghost predicate PairsExported(us: seq<Channel>) {
    forall j :: 0 <= j < |us| - 1 && j % 2 == 0 ==>
      ToDeviceChannel(us[j], j).kind == ToDeviceChannel(us[j + 1], j + 1).kind
  }

  // ---------- imported channels ----------

  /** Consistent but for the broken-wire box of a voltage channel, which the schema leaves free. */
  predicate Importable(u: Channel) {
    && TextIn(u.kind, Type, TYPES) && TextIn(u.smooth, Smooth, QUARTERS)
    && u.rangeSelection == RangesOf(u.kind) && u.rangeSelection.Includes(u.range)
    && u.openWire.Flag? && u.overflow.Flag? && u.underflow.Flag?
    && (LiveZero(u) ==> u.underflow == Flag(false))
    && (u.kind == CURRENT && !LiveZero(u) ==> u.openWire == Flag(false))
  }

  lemma ConsistentImportable(u: Channel)
    requires Consistent(u)
    ensures Importable(u)
  {
  }

  predicate KindShown(u: Channel, c: AiChannel) {
    c.kind.Num? && u.kind == Label(Type, c.kind.n)
  }

  lemma ValidImportable(c: AiChannel, i: nat)
    requires AiChannelValid(c) && i <= 7
    ensures Importable(ToUiChannel(c, i)) && KindShown(ToUiChannel(c, i), c)
  {
    hide ToUiChannel, AI_TABLE;
    UiChannelIs(c, i);
  }

  lemma ImportableIsValid(u: Channel, i: nat)
    requires Importable(u) && i <= 7
    ensures AiChannelValid(ToDeviceChannel(u, i))
    ensures u.kind.Label? && ToDeviceChannel(u, i).kind == Num(u.kind.code)
  {
    hide ToDeviceChannel, AI_TABLE;
    DeviceChannelIs(u, i);
  }

  lemma MountSettles(u: Channel)
    requires Importable(u)
    ensures Consistent(Mounted(u)) && Mounted(u).kind == u.kind
  {
  }

  /** An import onto a page that shows the same module replaces its values without showing it anew. A
      broken-wire alarm comes through on a voltage channel whose box was disabled before as well. */
  predicate Slips(before: Channel, c: AiChannel) {
    c.kind == Num(1) && c.openWireAlarm == Flag(true) && !LiveZero(before)
  }

  lemma ReplacedConsistentIff(before: Channel, c: AiChannel, i: nat)
    requires AiChannelValid(c) && i <= 7
    ensures Consistent(Cleared(before, ToUiChannel(c, i))) <==> !Slips(before, c)
    ensures KindShown(Cleared(before, ToUiChannel(c, i)), c)
    ensures Slips(before, c) ==> Cleared(before, ToUiChannel(c, i)).kind == VOLTAGE
    ensures Slips(before, c) ==> Cleared(before, ToUiChannel(c, i)).openWire == Flag(true)
  {
    hide ToUiChannel, AI_TABLE;
    UiChannelIs(c, i);
  }

  /** The channels of a page over which an import has been made. */
  function ReplacedBy(before: seq<Channel>, cs: seq<AiChannel>): (us: seq<Channel>)
    requires |before| == |cs|
    ensures |us| == |cs|
  {
    seq(|cs|, i requires 0 <= i < |cs| => Cleared(before[i], ToUiChannel(cs[i], i)))
  }

  /** The first channel of j's pair becomes a current channel, and j with it. */
  function PairToCurrent(j: nat): Change {
    Change(j - j % 2, SelectType(CURRENT))
  }

  /** A ticked broken-wire box survives the change of a voltage channel to the range 0 to 20 mA, which
      excludes it. */
  lemma SlippedThenChanged(us: seq<Channel>, j: nat)
    requires |us| % 2 == 0 && |us| <= 8 && j < |us| && us[j].kind == VOLTAGE && us[j].openWire == Flag(true)
    ensures Run(us, [PairToCurrent(j)]).Some? && |Run(us, [PairToCurrent(j)]).value| == |us|
    ensures !AiChannelValid(ToDeviceChannel(Run(us, [PairToCurrent(j)]).value[j], j))
  {
    hide ToDeviceChannel, AI_TABLE;
    var e := PairToCurrent(j);
    assert [e][..0] == [] && Run(us, []) == Some(us);
    var w := Step(us, e.index, e.edit)[j];
    assert w == Cleared(us[j], WithType(us[j], CURRENT));
    DeviceChannelIs(w, j);
  }

  /** Of the imports the schema accepts, onto a page of the same module, exactly those without a
      slipping channel export acceptable channels after every run of edits. */
  lemma ImportedStaysValidIff(before: seq<Channel>, cs: seq<AiChannel>)
    requires |before| == |cs| && |cs| % 2 == 0 && |cs| <= 8 && forall c :: c in cs ==> AiChannelValid(c)
    ensures (forall i :: 0 <= i < |cs| ==> !Slips(before[i], cs[i])) <==> RunsExportValid(ReplacedBy(before, cs))
  {
    hide AiChannelValid, Slips, Consistent, Cleared, ToUiChannel, ToDeviceChannel, Run;
    var us := ReplacedBy(before, cs);
    forall i | 0 <= i < |cs|
      ensures Consistent(us[i]) <==> !Slips(before[i], cs[i])
      ensures Slips(before[i], cs[i]) ==> us[i].kind == VOLTAGE && us[i].openWire == Flag(true)
    {
      ReplacedConsistentIff(before[i], cs[i], i);
    }
    if forall i :: 0 <= i < |cs| ==> !Slips(before[i], cs[i]) {
      forall es | Run(us, es).Some?
        ensures ExportsValid(Run(us, es).value)
      {
        EveryRunExportsValid(us, es);
      }
    } else {
      var j :| 0 <= j < |cs| && Slips(before[j], cs[j]);
      SlippedThenChanged(us, j);
      assert !ExportsValid(Run(us, [PairToCurrent(j)]).value);
    }
  }

  predicate ExportsValid(us: seq<Channel>) {
    forall i :: 0 <= i < |us| ==> AiChannelValid(ToDeviceChannel(us[i], i))
  }

  ghost predicate RunsExportValid(us: seq<Channel>) {
    forall es :: Run(us, es).Some? ==> ExportsValid(Run(us, es).value)
  }

  // ---------- the whole page ----------

  predicate AiNumber(mlfb: string) {
    mlfb == SM1231_4AI || mlfb == SM1231_8AI
  }

  ghost predicate PageConsistent(p: Page) {
    && AiNumber(p.mlfb) && |p.channels| == ChannelNums(p.mlfb)
    && TextIn(p.integTime, IntTime, QUARTERS) && p.powerAlarm.Flag? && AllConsistent(p.channels)
  }

  lemma PageDefaultConsistent(mlfb: string)
    requires AiNumber(mlfb)
    ensures PageConsistent(PageDefault(mlfb))
  {
    hide AllConsistent;
    DefaultConsistent(mlfb);
  }

  /** A page as an import leaves it before it is shown. */
  ghost predicate PageImportable(p: Page) {
    && AiNumber(p.mlfb) && |p.channels| == ChannelNums(p.mlfb)
    && TextIn(p.integTime, IntTime, QUARTERS) && p.powerAlarm.Flag?
    && (forall u :: u in p.channels ==> Importable(u)) && Paired(p.channels)
  }

  lemma PageConsistentImportable(p: Page)
    requires PageConsistent(p)
    ensures PageImportable(p)
  {
    hide Consistent, Importable, Paired;
    forall u | u in p.channels
      ensures Importable(u)
    {
      ConsistentImportable(u);
    }
  }

  lemma PageImportableIsValid(p: Page)
    requires PageImportable(p)
    ensures SlotValid(ToDevice(p)) && Produce(p.mlfb) == Ai(ChannelNums(p.mlfb))
    ensures forall j :: 0 <= j < |p.channels| - 1 && j % 2 == 0
              ==> ToDevice(p).body.ai[j].kind == ToDevice(p).body.ai[j + 1].kind
  {
    hide Importable, ToDeviceChannel, AiChannelValid, AI_TABLE, UiToYaml;
    AiTranslates(0);
    assert RStrip(SM1231_4AI) == SM1231_4AI && RStrip(SM1231_8AI) == SM1231_8AI;
    var b := ToDevice(p).body;
    forall i | 0 <= i < |b.ai|
      ensures AiChannelValid(b.ai[i]) && p.channels[i].kind.Label? && b.ai[i].kind == Num(p.channels[i].kind.code)
    {
      assert p.channels[i] in p.channels;
      ImportableIsValid(p.channels[i], i);
    }
  }

  lemma PageIsValid(p: Page)
    requires PageConsistent(p)
    ensures SlotValid(ToDevice(p)) && Produce(p.mlfb) == Ai(ChannelNums(p.mlfb))
    ensures forall j :: 0 <= j < |p.channels| - 1 && j % 2 == 0
              ==> ToDevice(p).body.ai[j].kind == ToDevice(p).body.ai[j + 1].kind
  {
    hide PageConsistent, PageImportable, SlotValid, ToDeviceChannel, UiToYaml;
    PageConsistentImportable(p);
    PageImportableIsValid(p);
  }

  lemma PageImported(slot: SlotConfig)
    requires AiNumber(slot.mlfb) && slot.body.AiBody? && |slot.body.ai| == ChannelNums(slot.mlfb)
    requires slot.body.powerAlarm.Flag? && OneOf(slot.body.integTime, {0, 1, 2, 3})
    requires forall c :: c in slot.body.ai ==> AiChannelValid(c)
    ensures forall i :: 0 <= i < |slot.body.ai|
              ==> Importable(ToUi(slot).channels[i]) && KindShown(ToUi(slot).channels[i], slot.body.ai[i])
    ensures (forall j :: 0 <= j < |slot.body.ai| && j % 2 == 0 ==> slot.body.ai[j].kind == slot.body.ai[j + 1].kind)
        ==> PageImportable(ToUi(slot))
  {
    hide ToUiChannel, AiChannelValid, Importable, YamlToUi;
    AiTranslates(0);
    assert |ToUi(slot).channels| == |slot.body.ai|;
    forall i | 0 <= i < |slot.body.ai|
      ensures Importable(ToUi(slot).channels[i]) && KindShown(ToUi(slot).channels[i], slot.body.ai[i])
    {
      assert slot.body.ai[i] in slot.body.ai;
      ValidImportable(slot.body.ai[i], i);
    }
  }
}
