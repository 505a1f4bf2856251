/** The pages of the digital modules: SM1223 with 8 or 16 channels, and SM1221, which has only the
    filter times. */
module DigitalPage {
  import opened Common
  import opened Modules
  import opened ModuleLaws
  import opened TextTables
  import opened Schema

  // ---------- label tables ----------

  const BEHAVIORS: set<int> := {2, 3}

  const DELAY_LIST: seq<int> := [2, 3, 4, 5, 6, 7, 9]
  const BEHAVIOR_LIST: seq<int> := [2, 3]
  const MARKS: Rule := Rule(ALL, [Entry(Mark(true), 1), Entry(Mark(false), 0)])

  const SM1223_TABLE: Table := [
    Item([GroupWord(0, DelayTimeName), GroupWord(1, DelayTimeName), GroupWord(2, DelayTimeName),
          GroupWord(3, DelayTimeName)],
         [Rule(ALL, Codes(Time, DELAY_LIST))]),
    Item([Word(BehaviorName)], [Rule(ALL, Codes(Disconn, BEHAVIOR_LIST))]),
    Item([ChannelWord(15, SubstituteName)], [MARKS])]

  const SM1221_TABLE: Table := [
    Item([GroupWord(0, DelayTimeName), GroupWord(1, DelayTimeName)], [Rule(ALL, Codes(Time, DELAY_LIST))])]

  lemma Lists()
    ensures Members(DELAY_LIST) == DELAYS && Members(BEHAVIOR_LIST) == BEHAVIORS
  {
  }

  lemma OnlyItems(g: nat, i: nat)
    requires g <= 3 && i <= 15
    ensures OnlyItem(SM1223_TABLE, 0, g, OfChannel(g, DelayTimeName))
    ensures OnlyItem(SM1223_TABLE, 1, 0, Whole(BehaviorName))
    ensures OnlyItem(SM1223_TABLE, 2, 0, OfChannel(i, SubstituteName))
    ensures g <= 1 ==> OnlyItem(SM1221_TABLE, 0, g, OfChannel(g, DelayTimeName))
  {
    hide Codes, DELAY_LIST, BEHAVIOR_LIST, MARKS;
  }

  lemma DigitalTranslates(g: nat)
    requires g <= 3
    ensures Translates(SM1223_TABLE, OfChannel(g, DelayTimeName), ALL, Time, DELAYS)
    ensures g <= 1 ==> Translates(SM1221_TABLE, OfChannel(g, DelayTimeName), ALL, Time, DELAYS)
    ensures Translates(SM1223_TABLE, Whole(BehaviorName), ALL, Disconn, BEHAVIORS)
  {
    hide Translates, OnlyItem, Codes, Members, DELAY_LIST, BEHAVIOR_LIST, MARKS;
    Lists();
    OnlyItems(g, 0);
    KeyTranslates(SM1223_TABLE, 0, g, OfChannel(g, DelayTimeName), SM1223_TABLE[0].rules[0], Time, DELAY_LIST, DELAYS);
    if g <= 1 {
      KeyTranslates(SM1221_TABLE, 0, g, OfChannel(g, DelayTimeName), SM1221_TABLE[0].rules[0], Time, DELAY_LIST,
                    DELAYS);
    }
    KeyTranslates(SM1223_TABLE, 1, 0, Whole(BehaviorName), SM1223_TABLE[1].rules[0], Disconn, BEHAVIOR_LIST, BEHAVIORS);
  }

  function ShowMark(v: Value): UiText {
    if v == Num(1) then Mark(true) else if v == Num(0) then Mark(false) else ErrorText
  }

  function ReadMark(t: UiText): Value {
    if t == Mark(true) then Num(1) else if t == Mark(false) then Num(0) else ERROR
  }

  lemma TwoEntries(a: Entry, b: Entry, q: Query)
    ensures InMapping([a, b], q) == if Answers(a, q) then Some(a) else if Answers(b, q) then Some(b) else None
  {
    assert [a, b][1..] == [b] && [b][1..] == [];
    assert InMapping([b], q) == if Answers(b, q) then Some(b) else None;
  }

  lemma MarkTranslates(i: nat, t: UiText, v: Value)
    requires i <= 15
    ensures UiToYaml(SM1223_TABLE, OfChannel(i, SubstituteName), t, ALL) == ReadMark(t)
    ensures YamlToUi(SM1223_TABLE, OfChannel(i, SubstituteName), v, ALL) == ShowMark(v)
  {
    hide OnlyItem, Codes, InTable, Applicable, RuleEntries, InMapping;
    var key := OfChannel(i, SubstituteName);
    OnlyItems(0, i);
    OneItem(SM1223_TABLE, 2, 0, key, ALL);
    OneRule(MARKS);
    SearchIsFirstMatch(SM1223_TABLE, key, ALL, ByUi(t));
    SearchIsFirstMatch(SM1223_TABLE, key, ALL, ByYaml(v));
    TwoEntries(Entry(Mark(true), 1), Entry(Mark(false), 0), ByUi(t));
    TwoEntries(Entry(Mark(true), 1), Entry(Mark(false), 0), ByYaml(v));
  }

  // ---------- SM1223 ----------

  /** Filter times by group of four channels, and a substitute for every output channel. */
  datatype Page = Page(mlfb: string, delays: seq<UiText>, behavior: UiText, substitute: seq<UiText>)

  /** The channel count, where only the 16-channel number is recognised. */
  function Channels(mlfb: string): nat {
    if mlfb == SM1223_DC then 16 else 8
  }

  predicate Sm1223Number(mlfb: string) {
    mlfb == SM1223_AC || mlfb == SM1223_DC
  }

  const DELAY_DEFAULT: UiText := Label(Time, 3)

  function PageDefault(mlfb: string): Page {
    Page(mlfb, seq(Channels(mlfb) / 4, _ => DELAY_DEFAULT), Label(Disconn, 2), seq(Channels(mlfb), _ => Mark(true)))
  }

  /** SM1223ConfDefault. */
  method ConfDefault(mlfb: string) returns (page: Page)
    ensures page == PageDefault(mlfb)
  {
    var delays := [DELAY_DEFAULT, DELAY_DEFAULT];
    var chTotal := 8;
    if mlfb == SM1223_DC {
      delays := delays + [DELAY_DEFAULT];
      delays := delays + [DELAY_DEFAULT];
      chTotal := 16;
    }
    var substitute: seq<UiText> := [];
    for i := 0 to chTotal
      invariant substitute == seq(i, _ => Mark(true))
    {
      substitute := substitute + [Mark(true)];
    }
    assert delays == PageDefault(mlfb).delays;
    page := Page(mlfb, delays, Label(Disconn, 2), substitute);
  }

  predicate DeviceShaped(slot: SlotConfig) {
    slot.body.InputsOutputs? && 4 * |slot.body.delays| == Channels(slot.mlfb)
  }

  /** The page of a device slot; an output channel that is not configured is an exception. */
  function ToUi(slot: SlotConfig): Result<Page>
    requires DeviceShaped(slot)
  {
    var b := slot.body;
    var n := Channels(slot.mlfb);
    if exists i :: 0 <= i < n && i !in b.substitute then Err(TypeError)
    else
      Ok(Page(slot.mlfb,
              seq(|b.delays|, g requires 0 <= g < |b.delays| =>
                YamlToUi(SM1223_TABLE, OfChannel(g, DelayTimeName), b.delays[g], ALL)),
              YamlToUi(SM1223_TABLE, Whole(BehaviorName), b.behaviorWithOD, ALL),
              seq(n, i requires 0 <= i < n =>
                YamlToUi(SM1223_TABLE, OfChannel(i, SubstituteName), b.substitute[i], ALL))))
  }

  method ConvertToUiFormat(slot: SlotConfig) returns (r: Result<Page>)
    requires DeviceShaped(slot)
    ensures r == ToUi(slot)
  {
    hide YamlToUi;
    var b := slot.body;
    var page := ConfDefault(slot.mlfb);
    var delays := page.delays;
    for g := 0 to |b.delays|
      invariant |delays| == |b.delays|
      invariant forall h ::
            0 <= h < g ==> delays[h] == YamlToUi(SM1223_TABLE, OfChannel(h, DelayTimeName), b.delays[h], ALL)
    {
      delays := delays[g := YamlToUi(SM1223_TABLE, OfChannel(g, DelayTimeName), b.delays[g], ALL)];
    }
    var behavior := YamlToUi(SM1223_TABLE, Whole(BehaviorName), b.behaviorWithOD, ALL);
    var substitute := page.substitute;
    for i := 0 to Channels(slot.mlfb)
      invariant |substitute| == Channels(slot.mlfb)
      invariant forall j: nat :: j < i ==> j in b.substitute
      invariant forall j: nat ::
            j < i ==> substitute[j] == YamlToUi(SM1223_TABLE, OfChannel(j, SubstituteName), b.substitute[j], ALL)
    {
      if i !in b.substitute {
        return Err(TypeError);
      }
      substitute := substitute[i := YamlToUi(SM1223_TABLE, OfChannel(i, SubstituteName), b.substitute[i], ALL)];
    }
    assert delays == ToUi(slot).value.delays;
    assert substitute == ToUi(slot).value.substitute;
    r := Ok(Page(slot.mlfb, delays, behavior, substitute));
  }

  /** Here only the 8-channel number is recognised. */
  function ChannelsBack(mlfb: string): nat {
    if mlfb == SM1223_AC then 8 else 16
  }

  predicate PageShaped(page: Page) {
    4 * |page.delays| == ChannelsBack(page.mlfb) && |page.substitute| == ChannelsBack(page.mlfb)
  }

  function Description(mlfb: string): string {
    if ChannelsBack(mlfb) == 8 then "SM 1223 DI8 x 120VAC / DQ8 x relay" else "SM 1223 DI16 x 24VAC / DQ16 x relay"
  }

  function ToDevice(page: Page): SlotConfig
    requires PageShaped(page)
  {
    SlotConfig(Description(page.mlfb), page.mlfb,
               InputsOutputs(
                 seq(|page.delays|, g requires 0 <= g < |page.delays| =>
                   UiToYaml(SM1223_TABLE, OfChannel(g, DelayTimeName), page.delays[g], ALL)),
                 UiToYaml(SM1223_TABLE, Whole(BehaviorName), page.behavior, ALL),
                 map i: nat | i < ChannelsBack(page.mlfb) ::
                   UiToYaml(SM1223_TABLE, OfChannel(i, SubstituteName), page.substitute[i], ALL)))
  }

  method ConvertToDeviceFormat(page: Page) returns (slot: SlotConfig)
    requires PageShaped(page)
    ensures slot == ToDevice(page)
  {
    hide UiToYaml;
    var chTotal := ChannelsBack(page.mlfb);
    var delays: seq<Value> := [];
    for g := 0 to chTotal / 4
      invariant |delays| == g
      invariant forall h ::
            0 <= h < g ==> delays[h] == UiToYaml(SM1223_TABLE, OfChannel(h, DelayTimeName), page.delays[h], ALL)
    {
      delays := delays + [UiToYaml(SM1223_TABLE, OfChannel(g, DelayTimeName), page.delays[g], ALL)];
    }
    var behavior := UiToYaml(SM1223_TABLE, Whole(BehaviorName), page.behavior, ALL);
    var substitute: map<nat, Value> := map[];
    for i := 0 to chTotal
      invariant forall j: nat :: j in substitute <==> j < i
      invariant forall j: nat :: j < i ==>
        substitute[j] == UiToYaml(SM1223_TABLE, OfChannel(j, SubstituteName), page.substitute[j], ALL)
    {
      substitute := substitute[i := UiToYaml(SM1223_TABLE, OfChannel(i, SubstituteName), page.substitute[i], ALL)];
    }
    assert delays == ToDevice(page).body.delays;
    assert substitute == ToDevice(page).body.substitute;
    slot := SlotConfig(Description(page.mlfb), page.mlfb, InputsOutputs(delays, behavior, substitute));
  }

  lemma DeviceIs(page: Page)
    requires PageShaped(page) && Sm1223Number(page.mlfb)
    ensures var b := ToDevice(page).body;
      && |b.delays| == |page.delays|
      && (forall g :: 0 <= g < |b.delays| ==> b.delays[g] == Read(page.delays[g], Time, DELAYS))
      && b.behaviorWithOD == Read(page.behavior, Disconn, BEHAVIORS)
      && (forall i: nat :: i in b.substitute <==> i < ChannelsBack(page.mlfb))
      && (forall i: nat :: i in b.substitute ==> b.substitute[i] == ReadMark(page.substitute[i]))
  {
    hide UiToYaml, SM1223_TABLE, DELAYS;
    DigitalTranslates(0);
    forall g | 0 <= g < |page.delays|
      ensures UiToYaml(SM1223_TABLE, OfChannel(g, DelayTimeName), page.delays[g], ALL)
              == Read(page.delays[g], Time, DELAYS)
    {
      DigitalTranslates(g);
    }
    forall i: nat | i < ChannelsBack(page.mlfb)
      ensures UiToYaml(SM1223_TABLE, OfChannel(i, SubstituteName), page.substitute[i], ALL)
              == ReadMark(page.substitute[i])
    {
      MarkTranslates(i, page.substitute[i], ERROR);
    }
  }

  lemma UiIs(slot: SlotConfig)
    requires DeviceShaped(slot) && ToUi(slot).Ok?
    ensures var b, page := slot.body, ToUi(slot).value;
      && |page.delays| == |b.delays|
      && (forall g :: 0 <= g < |b.delays| ==> page.delays[g] == Show(b.delays[g], Time, DELAYS))
      && page.behavior == Show(b.behaviorWithOD, Disconn, BEHAVIORS)
      && |page.substitute| == Channels(slot.mlfb)
      && (forall i: nat ::
            i < Channels(slot.mlfb) ==> i in b.substitute && page.substitute[i] == ShowMark(b.substitute[i]))
  {
    hide YamlToUi, SM1223_TABLE, DELAYS;
    var b := slot.body;
    DigitalTranslates(0);
    forall g | 0 <= g < |b.delays|
      ensures YamlToUi(SM1223_TABLE, OfChannel(g, DelayTimeName), b.delays[g], ALL) == Show(b.delays[g], Time, DELAYS)
    {
      DigitalTranslates(g);
    }
    forall i: nat | i < Channels(slot.mlfb)
      ensures i in b.substitute
      ensures YamlToUi(SM1223_TABLE, OfChannel(i, SubstituteName), b.substitute[i], ALL) == ShowMark(b.substitute[i])
    {
      MarkTranslates(i, ErrorText, b.substitute[i]);
    }
  }

  predicate BodyKept(b: Body)
    requires b.InputsOutputs?
  {
    && (forall d :: d in b.delays ==> Kept(d, DELAYS)) && Kept(b.behaviorWithOD, BEHAVIORS)
    && (forall i :: i in b.substitute ==> Kept(b.substitute[i], {0, 1}))
  }

  lemma ImportAccepts(slot: SlotConfig)
    requires DeviceShaped(slot)
    ensures ToUi(slot).Ok? <==> forall i: nat :: i < Channels(slot.mlfb) ==> i in slot.body.substitute
    ensures ToUi(slot).Ok? ==> ToUi(slot).value.mlfb == slot.mlfb
  {
    hide YamlToUi, SM1223_TABLE;
  }

  lemma ThereAndBack(slot: SlotConfig)
    requires DeviceShaped(slot) && Sm1223Number(slot.mlfb) && ToUi(slot).Ok?
    ensures PageShaped(ToUi(slot).value)
    ensures var b, c := slot.body, ToDevice(ToUi(slot).value).body;
      && |c.delays| == |b.delays|
      && (forall g :: 0 <= g < |b.delays| ==> (c.delays[g] == b.delays[g] <==> Kept(b.delays[g], DELAYS)))
      && (c.behaviorWithOD == b.behaviorWithOD <==> Kept(b.behaviorWithOD, BEHAVIORS))
      && (forall i: nat :: i in c.substitute <==> i < Channels(slot.mlfb))
      && (forall i: nat :: i in c.substitute ==> i in b.substitute)
      && (forall i: nat ::
            i in c.substitute ==> (c.substitute[i] == b.substitute[i] <==> Kept(b.substitute[i], {0, 1})))
  {
    hide ToUi, ToDevice, DELAYS, BEHAVIORS;
    ImportAccepts(slot);
    UiIs(slot);
    DeviceIs(ToUi(slot).value);
  }

  /** A device slot can be imported exactly when every output channel is configured. It then comes
      back from an export exactly when its numbers are listed, except for the description and for
      channels the module does not have. */
  lemma DeviceRoundTrip(slot: SlotConfig)
    requires DeviceShaped(slot) && Sm1223Number(slot.mlfb)
    ensures ToUi(slot).Ok? <==> forall i: nat :: i < Channels(slot.mlfb) ==> i in slot.body.substitute
    ensures ToUi(slot).Ok? ==> PageShaped(ToUi(slot).value)
    ensures HasChannels(slot.body.substitute, Channels(slot.mlfb))
        ==> (ToDevice(ToUi(slot).value) == slot.(description := Description(slot.mlfb)) <==> BodyKept(slot.body))
  {
    hide ToUi, ToDevice, DELAYS, BEHAVIORS, Kept, Description;
    ImportAccepts(slot);
    if HasChannels(slot.body.substitute, Channels(slot.mlfb)) {
      ThereAndBack(slot);
      var page := ToUi(slot).value;
      HeadKept(page);
      var b, c := slot.body, ToDevice(page).body;
      if c.delays == b.delays {
        forall d | d in b.delays
          ensures Kept(d, DELAYS)
        {
          var g :| 0 <= g < |b.delays| && b.delays[g] == d;
          assert c.delays[g] == b.delays[g];
        }
      }
    } else if ToUi(slot).Ok? {
      ThereAndBack(slot);
    }
  }

  lemma HeadKept(page: Page)
    requires PageShaped(page)
    ensures ToDevice(page).mlfb == page.mlfb && ToDevice(page).description == Description(page.mlfb)
    ensures ToDevice(page).body.InputsOutputs?
  {
  }

  // ---------- editing ----------

  datatype Edit =
    | SelectDelay(group: nat, t: UiText)
    | SelectBehavior(t: UiText)
    | CheckSubstitute(channel: nat, on: bool)

  /** The channel boxes are on display only with the substitute behaviour chosen. */
  predicate Enabled(page: Page, e: Edit) {
    match e
    case SelectDelay(g, t) => g < |page.delays| && TextIn(t, Time, DELAYS)
    case SelectBehavior(t) => TextIn(t, Disconn, BEHAVIORS)
    case CheckSubstitute(i, _) => page.behavior == Label(Disconn, 3) && i < |page.substitute|
  }

  function Step(page: Page, e: Edit): Page {
    match e
    case SelectDelay(g, t) => if g < |page.delays| then page.(delays := page.delays[g := t]) else page
    case SelectBehavior(t) => page.(behavior := t)
    case CheckSubstitute(i, on) =>
      if i < |page.substitute| then page.(substitute := page.substitute[i := Mark(on)]) else page
  }

  predicate Consistent(page: Page) {
    && PageShaped(page) && Sm1223Number(page.mlfb)
    && (forall d :: d in page.delays ==> TextIn(d, Time, DELAYS)) && TextIn(page.behavior, Disconn, BEHAVIORS)
    && (forall t :: t in page.substitute ==> t.Mark?)
  }

  lemma StepKeeps(page: Page, e: Edit)
    requires Consistent(page) && Enabled(page, e)
    ensures Consistent(Step(page, e)) && Step(page, e).mlfb == page.mlfb
  {
  }

  lemma DefaultConsistent(mlfb: string)
    requires Sm1223Number(mlfb)
    ensures Consistent(PageDefault(mlfb))
  {
  }

  /** A page with offered labels is exported as the schema and the serializers want it. */
  lemma ConsistentIsValid(page: Page)
    requires Consistent(page)
    ensures SlotValid(ToDevice(page)) && Produce(page.mlfb) == Sm1223(ChannelsBack(page.mlfb))
    ensures Writable(Produce(page.mlfb), ToDevice(page).body)
  {
    hide ToDevice, DELAYS;
    DeviceIs(page);
    HeadKept(page);
    assert RStrip(SM1223_AC) == SM1223_AC && RStrip(SM1223_DC) == SM1223_DC;
    var b := ToDevice(page).body;
    forall d | d in b.delays
      ensures OneOf(d, DELAYS)
    {
      var g :| 0 <= g < |b.delays| && b.delays[g] == d;
      assert page.delays[g] in page.delays;
    }
    forall i: nat | i in b.substitute
      ensures OneOf(b.substitute[i], {0, 1})
    {
      assert page.substitute[i] in page.substitute;
    }
  }

  /** A slot the schema accepts is imported with offered labels. */
  lemma ImportConsistent(slot: SlotConfig)
    requires slot.mlfb in NUMBERS && Sm1223Number(slot.mlfb) && DeviceShaped(slot) && ToUi(slot).Ok?
    requires (forall d :: d in slot.body.delays ==> OneOf(d, DELAYS)) && OutputsValid(slot.body, Channels(slot.mlfb))
    ensures Consistent(ToUi(slot).value) && ToUi(slot).value.mlfb == slot.mlfb
  {
    hide ToUi, DELAYS;
    ImportAccepts(slot);
    UiIs(slot);
    var page := ToUi(slot).value;
    forall t | t in page.delays
      ensures TextIn(t, Time, DELAYS)
    {
      var g :| 0 <= g < |page.delays| && page.delays[g] == t;
      assert slot.body.delays[g] in slot.body.delays;
    }
    forall t | t in page.substitute
      ensures t.Mark?
    {
      var i :| 0 <= i < |page.substitute| && page.substitute[i] == t;
      assert i in slot.body.substitute;
    }
  }

  // ---------- SM1221 ----------

  datatype InputPage = InputPage(mlfb: string, delays: seq<UiText>)

  const INPUT_DEFAULT: InputPage := InputPage(SM1221, [DELAY_DEFAULT, DELAY_DEFAULT])

  function InputToUi(slot: SlotConfig): InputPage
    requires slot.body.Inputs? && |slot.body.delays| == 2
  {
    InputPage(SM1221, [YamlToUi(SM1221_TABLE, OfChannel(0, DelayTimeName), slot.body.delays[0], ALL),
                       YamlToUi(SM1221_TABLE, OfChannel(1, DelayTimeName), slot.body.delays[1], ALL)])
  }

  function InputToDevice(page: InputPage): SlotConfig
    requires |page.delays| == 2
  {
    SlotConfig("SM 1221 DI8 x 24VDC", page.mlfb,
               Inputs([UiToYaml(SM1221_TABLE, OfChannel(0, DelayTimeName), page.delays[0], ALL),
                       UiToYaml(SM1221_TABLE, OfChannel(1, DelayTimeName), page.delays[1], ALL)]))
  }

  predicate InputConsistent(page: InputPage) {
    page.mlfb == SM1221 && |page.delays| == 2 && forall d :: d in page.delays ==> TextIn(d, Time, DELAYS)
  }

  /** Import and export of an SM1221 undo each other: on listed numbers in one direction, on offered
      labels in the other. */
  lemma InputRoundTrip(slot: SlotConfig)
    requires slot.mlfb == SM1221 && slot.body.Inputs? && |slot.body.delays| == 2
    ensures InputToDevice(InputToUi(slot)).body == slot.body
            <==> Kept(slot.body.delays[0], DELAYS) && Kept(slot.body.delays[1], DELAYS)
  {
    hide YamlToUi, UiToYaml, SM1221_TABLE, DELAYS;
    DigitalTranslates(0);
    DigitalTranslates(1);
    ShownAndRead(slot.body.delays[0], Time, DELAYS);
    ShownAndRead(slot.body.delays[1], Time, DELAYS);
    var c := InputToDevice(InputToUi(slot)).body;
    assert c.delays == slot.body.delays <==> c.delays[0] == slot.body.delays[0] && c.delays[1] == slot.body.delays[1];
  }

  lemma InputConsistentIsValid(page: InputPage)
    requires InputConsistent(page)
    ensures SlotValid(InputToDevice(page)) && Produce(page.mlfb) == Sm1221
    ensures InputToUi(InputToDevice(page)) == page
  {
    hide YamlToUi, UiToYaml, SM1221_TABLE, DELAYS;
    DigitalTranslates(0);
    DigitalTranslates(1);
    assert RStrip(SM1221) == SM1221;
    assert InputToUi(InputToDevice(page)).delays == page.delays;
  }

  lemma InputImportConsistent(slot: SlotConfig)
    requires slot.body.Inputs? && |slot.body.delays| == 2 && forall d :: d in slot.body.delays ==> OneOf(d, DELAYS)
    ensures InputConsistent(InputToUi(slot))
  {
    hide YamlToUi, SM1221_TABLE, DELAYS;
    DigitalTranslates(0);
    DigitalTranslates(1);
    assert slot.body.delays[0] in slot.body.delays && slot.body.delays[1] in slot.body.delays;
  }
}
