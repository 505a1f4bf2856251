/** The configuration page: six tabs, a module for each, and the rule that a slot may be filled only
    when the one before it is. */
module SlotPage {
  import opened Common
  import opened Modules
  import opened EioConfig
  import opened EioCodec
  import opened Schema
  import opened TextTables
  import opened SmConfig
  import D = DigitalPage
  import R = RtdPage
  import A = AiPage
  import M = MeterPage
  import ML = MeterLaws

  // ---------- one slot ----------

  /** The article numbers of the module menu, without 'None'. */
  const MODULES: set<string> :=
    {SM1223_AC, SM1223_DC, SM1231_4RTD, SM1231_8RTD, SM1231_8AI, SM1238, SM_SENS_DI, SM1231_4AI, SM1221}

  function NumberOf(u: UiSlot): string {
    match u
    case NoneSlot => "None"
    case SensDiSlot => SM_SENS_DI
    case DigitalSlot(p) => p.mlfb
    case InputSlot(p) => p.mlfb
    case RtdSlot(p) => p.mlfb
    case AiSlot(p) => p.mlfb
    case MeterSlot(p) => p.mlfb
  }

  /** What choosing a module puts into a slot. */
  function DefaultSlot(mlfb: string): UiSlot {
    if D.Sm1223Number(mlfb) then DigitalSlot(D.PageDefault(mlfb))
    else if R.RtdNumber(mlfb) then RtdSlot(R.PageDefault(mlfb))
    else if A.AiNumber(mlfb) then AiSlot(A.PageDefault(mlfb))
    else if mlfb == SM1238 then MeterSlot(M.PAGE_DEFAULT)
    else if mlfb == SM_SENS_DI then SensDiSlot
    else if mlfb == SM1221 then InputSlot(D.INPUT_DEFAULT)
    else NoneSlot
  }

  datatype SlotEdit =
    | OnRtd(i: nat, rtdEdit: R.Edit)
    | OnAi(i: nat, aiEdit: A.Edit)
    | OnDigital(digitalEdit: D.Edit)
    | OnInput(group: nat, t: UiText)
    | OnMeter(meterEdit: M.Edit)
    | SelectIntegTime(t: UiText)
    | CheckPower(on: bool)

  predicate EditEnabled(u: UiSlot, e: SlotEdit) {
    match e
    case OnRtd(i, d) => u.RtdSlot? && i < |u.rtd.channels| && R.Enabled(u.rtd.channels[i], d)
    case OnAi(i, d) => u.AiSlot? && A.Enabled(u.ai.channels, i, d)
    case OnDigital(d) => u.DigitalSlot? && D.Enabled(u.digital, d)
    case OnInput(g, t) => u.InputSlot? && g < |u.input.delays| && TextIn(t, Time, DELAYS)
    case OnMeter(d) => u.MeterSlot? && |u.meter.channels| == 3 && M.Enabled(u.meter, d)
    case SelectIntegTime(t) => (u.RtdSlot? || u.AiSlot?) && TextIn(t, IntTime, R.QUARTERS)
    case CheckPower(_) => u.RtdSlot? || u.AiSlot?
  }

  function EditSlot(u: UiSlot, e: SlotEdit): UiSlot
    requires EditEnabled(u, e)
  {
    match e
    case OnRtd(i, d) => RtdSlot(u.rtd.(channels := u.rtd.channels[i := R.Step(u.rtd.channels[i], d)]))
    case OnAi(i, d) => AiSlot(u.ai.(channels := A.Step(u.ai.channels, i, d)))
    case OnDigital(d) => DigitalSlot(D.Step(u.digital, d))
    case OnInput(g, t) => InputSlot(u.input.(delays := u.input.delays[g := t]))
    case OnMeter(d) => MeterSlot(M.Step(u.meter, d))
    case SelectIntegTime(t) => if u.RtdSlot? then RtdSlot(u.rtd.(integTime := t)) else AiSlot(u.ai.(integTime := t))
    case CheckPower(on) =>
      if u.RtdSlot? then RtdSlot(u.rtd.(powerAlarm := Flag(on))) else AiSlot(u.ai.(powerAlarm := Flag(on)))
  }

  /** Showing a slot clears the disabled check boxes on it. */
  function MountSlot(u: UiSlot): UiSlot {
    match u
    case RtdSlot(p) =>
      RtdSlot(p.(channels := seq(|p.channels|, i requires 0 <= i < |p.channels| => R.Mounted(p.channels[i]))))
    case AiSlot(p) =>
      AiSlot(p.(channels := seq(|p.channels|, i requires 0 <= i < |p.channels| => A.Mounted(p.channels[i]))))
    case MeterSlot(p) => if |p.channels| == 3 then MeterSlot(M.Mounted(p)) else u
    case _ => u
  }

  /** Showing new values of the same module clears only the boxes they have just disabled. */
  function Replaced(u: UiSlot, w: UiSlot): UiSlot {
    if NumberOf(u) != NumberOf(w) then MountSlot(w)
    else
      match (u, w)
      case (RtdSlot(p), RtdSlot(q)) =>
        if |p.channels| != |q.channels| then w
        else
          RtdSlot(q.(channels := seq(|q.channels|, i requires 0 <= i < |q.channels| =>
            R.Cleared(p.channels[i].kind == R.OFF, R.OffOrResistor(p.channels[i]), q.channels[i]))))
      case (AiSlot(p), AiSlot(q)) =>
        if |p.channels| != |q.channels| then w
        else
          AiSlot(q.(channels := seq(|q.channels|, i requires 0 <= i < |q.channels| =>
            A.Cleared(p.channels[i], q.channels[i]))))
      case (MeterSlot(p), MeterSlot(q)) =>
        if |q.channels| == 3 then MeterSlot(M.Cleared(Some(p.conType), q)) else w
      case _ => w
  }

  // ---------- the page ----------

  datatype State = State(cur: nat, slots: seq<UiSlot>)

  datatype Event =
    | SelectTab(i: nat)
    | Choose(mlfb: string)
    | Edit(e: SlotEdit)
    | ImportConfig(config: Config)

  const INITIAL: State := State(0, seq(SLOTS, _ => NoneSlot))

  predicate Sized(s: State) {
    |s.slots| == SLOTS && s.cur < SLOTS
  }

  /** A tab is disabled when the slot before it is empty. */
  predicate TabDisabled(slots: seq<UiSlot>, i: nat)
    requires i < |slots|
  {
    i > 0 && slots[i - 1].NoneSlot?
  }

  predicate Possible(s: State, e: Event) {
    Sized(s) &&
    match e
    case SelectTab(i) => i < SLOTS && i != s.cur && !TabDisabled(s.slots, i)
    case Choose(mlfb) => (mlfb in MODULES || mlfb == "None") && mlfb != NumberOf(s.slots[s.cur])
    case Edit(d) => EditEnabled(s.slots[s.cur], d)
    case ImportConfig(config) => AllDeviceShaped(config)
  }

  /** updateSlot: an emptied slot empties the slots behind it. */
  function Updated(slots: seq<UiSlot>, index: nat, u: UiSlot): (ws: seq<UiSlot>)
    requires index < |slots|
    ensures |ws| == |slots|
  {
    if u.NoneSlot? then slots[..index] + seq(|slots| - index, _ => NoneSlot) else slots[index := u]
  }

  function StepPage(s: State, e: Event): (t: State)
    requires Possible(s, e)
    ensures Sized(t)
  {
    match e
    case SelectTab(i) => State(i, s.slots[i := MountSlot(s.slots[i])])
    case Choose(mlfb) => s.(slots := Updated(s.slots, s.cur, MountSlot(DefaultSlot(mlfb))))
    case Edit(d) => s.(slots := s.slots[s.cur := EditSlot(s.slots[s.cur], d)])
    case ImportConfig(config) =>
      match Import(config, SLOTS)
      case Err(_) => s
      case Ok(us) => s.(slots := us[s.cur := Replaced(s.slots[s.cur], us[s.cur])])
  }

  class Page {
    var curSlot: nat
    var config: seq<UiSlot>

    predicate Valid()
      reads this
    {
      |config| == SLOTS && curSlot < SLOTS
    }

    function View(): State
      reads this
    {
      State(curSlot, config)
    }

    constructor ()
      ensures Valid() && View() == INITIAL
    {
      curSlot := 0;
      config := seq(SLOTS, _ => NoneSlot);
    }

    method UpdateSlot(index: nat, conf: UiSlot)
      requires Valid() && index < SLOTS
      modifies this
      ensures Valid() && curSlot == old(curSlot) && config == Updated(old(config), index, conf)
    {
      ghost var before := config;
      config := config[index := conf];
      if conf.NoneSlot? {
        for i := index + 1 to |config|
          invariant Valid() && curSlot == old(curSlot)
          invariant config == before[..index] + seq(i - index, _ => NoneSlot) + before[i..]
        {
          config := config[i := conf];
        }
      }
    }

    method Handle(e: Event)
      requires Valid() && Possible(View(), e)
      modifies this
      ensures Valid() && View() == StepPage(old(View()), e)
    {
      hide EditEnabled, EditSlot, MountSlot, DefaultSlot, Import, Replaced;
      match e {
        case SelectTab(i) =>
          curSlot := i;
          config := config[i := MountSlot(config[i])];
        case Choose(mlfb) => UpdateSlot(curSlot, MountSlot(DefaultSlot(mlfb)));
        case Edit(d) =>
          EditKeepsModule(config[curSlot], d);
          UpdateSlot(curSlot, EditSlot(config[curSlot], d));
        case ImportConfig(imported) =>
          var us := ImportYamlConfig(imported);
          if us.Ok? {
            var shown := config[curSlot];
            config := us.value;
            config := config[curSlot := Replaced(shown, config[curSlot])];
          }
      }
    }
  }

  lemma EditKeepsModule(u: UiSlot, e: SlotEdit)
    requires EditEnabled(u, e)
    ensures !u.NoneSlot? && !EditSlot(u, e).NoneSlot?
  {
  }

  lemma MountKeepsModule(u: UiSlot)
    ensures MountSlot(u).NoneSlot? <==> u.NoneSlot?
  {
  }

  // ---------- consistent slots ----------

  ghost predicate ConsistentSlot(u: UiSlot) {
    match u
    case NoneSlot => true
    case SensDiSlot => true
    case DigitalSlot(p) => D.Consistent(p)
    case InputSlot(p) => D.InputConsistent(p)
    case RtdSlot(p) => R.PageConsistent(p)
    case AiSlot(p) => A.PageConsistent(p)
    case MeterSlot(p) => ML.Consistent(p)
  }

  lemma ConsistentIsShaped(u: UiSlot)
    requires ConsistentSlot(u)
    ensures Shaped(u)
  {
    hide R.Consistent, A.AllConsistent, ML.VariantSound, ML.MenuCurrent;
  }

  lemma DefaultIsConsistent(mlfb: string)
    ensures ConsistentSlot(DefaultSlot(mlfb))
    ensures mlfb in MODULES ==> !DefaultSlot(mlfb).NoneSlot?
    ensures mlfb == "None" ==> DefaultSlot(mlfb).NoneSlot?
  {
    hide D.Consistent, R.PageConsistent, A.PageConsistent, ML.Consistent, D.PageDefault, R.PageDefault, A.PageDefault,
         M.PAGE_DEFAULT;
    if D.Sm1223Number(mlfb) { D.DefaultConsistent(mlfb); }
    if R.RtdNumber(mlfb) { R.PageDefaultConsistent(mlfb); }
    if A.AiNumber(mlfb) { A.PageDefaultConsistent(mlfb); }
    ML.DefaultConsistent();
    InputDefaultConsistent();
    assert |"None"| == 4;
  }

  lemma InputDefaultConsistent()
    ensures D.InputConsistent(D.INPUT_DEFAULT)
  {
  }

  lemma MountIsConsistent(u: UiSlot)
    requires ConsistentSlot(u)
    ensures ConsistentSlot(MountSlot(u))
  {
    hide D.Consistent, R.Consistent, A.Consistent, ML.Consistent, R.Mounted, A.Mounted, M.Mounted;
    match u
    case RtdSlot(p) =>
      forall i | 0 <= i < |p.channels|
        ensures R.Mounted(p.channels[i]) == p.channels[i]
      {
        R.MountKeeps(p.channels[i]);
      }
      assert MountSlot(u).rtd.channels == p.channels;
    case AiSlot(p) =>
      forall i | 0 <= i < |p.channels|
        ensures A.Mounted(p.channels[i]) == p.channels[i]
      {
        assert p.channels[i] in p.channels;
        A.MountKeeps(p.channels[i]);
      }
      assert MountSlot(u).ai.channels == p.channels;
    case MeterSlot(p) => ML.MountKeeps(p);
    case _ =>
  }

  lemma EditIsConsistent(u: UiSlot, e: SlotEdit)
    requires ConsistentSlot(u) && EditEnabled(u, e)
    ensures ConsistentSlot(EditSlot(u, e))
  {
    hide D.Consistent, R.Consistent, A.EachConsistent, A.Paired, ML.Consistent, R.Step, A.Step, M.Step, D.Step,
         R.Enabled, A.Enabled, M.Enabled, D.Enabled, TextIn;
    match e
    case OnRtd(i, d) => R.StepKeeps(u.rtd.channels[i], d);
    case OnAi(i, d) =>
      AiIndex(u.ai.channels, i, d);
      A.StepKeeps(u.ai.channels, i, d);
    case OnDigital(d) => D.StepKeeps(u.digital, d);
    case OnMeter(d) => ML.StepKeeps(u.meter, d);
    case _ =>
  }

  lemma AiIndex(us: seq<A.Channel>, i: nat, e: A.Edit)
    requires A.Enabled(us, i, e)
    ensures i < |us| && (e.SelectType? ==> i + 1 < |us|)
  {
  }

  // ---------- runs without an import ----------

  /** Modules fill a prefix of the slots, and the slot before the selected tab is filled. */
  predicate Chained(s: State) {
    && Sized(s)
    && (forall i :: 0 < i < SLOTS && !s.slots[i].NoneSlot? ==> !s.slots[i - 1].NoneSlot?)
    && !TabDisabled(s.slots, s.cur)
  }

  ghost predicate Good(s: State) {
    Chained(s) && forall i :: 0 <= i < SLOTS ==> ConsistentSlot(s.slots[i])
  }

  lemma StepChained(s: State, e: Event)
    requires Chained(s) && Possible(s, e) && !e.ImportConfig?
    ensures Chained(StepPage(s, e))
  {
    hide MountSlot, EditSlot, EditEnabled, DefaultSlot, Import;
    match e
    case SelectTab(i) => MountKeepsModule(s.slots[i]);
    case Choose(mlfb) => PrefixKept(s, MountSlot(DefaultSlot(mlfb)));
    case Edit(d) => EditKeepsModule(s.slots[s.cur], d);
  }

  lemma PrefixKept(s: State, u: UiSlot)
    requires Chained(s)
    ensures Chained(s.(slots := Updated(s.slots, s.cur, u)))
  {
    var ws := Updated(s.slots, s.cur, u);
    assert forall i :: 0 <= i < s.cur ==> ws[i] == s.slots[i];
    PrefixFilled(s, s.cur);
  }

  lemma {:induction false} PrefixFilled(s: State, k: nat)
    requires Chained(s) && k <= s.cur
    ensures forall i :: 0 <= i < k ==> !s.slots[i].NoneSlot?
    decreases s.cur - k
  {
    if k < s.cur {
      PrefixFilled(s, k + 1);
    } else {
      FilledBelow(s, k);
    }
  }

  lemma {:induction false} FilledBelow(s: State, k: nat)
    requires Chained(s) && k < SLOTS && (k > 0 ==> !s.slots[k - 1].NoneSlot?)
    ensures forall i :: 0 <= i < k ==> !s.slots[i].NoneSlot?
  {
    if k > 1 {
      FilledBelow(s, k - 1);
    }
  }

  lemma StepGood(s: State, e: Event)
    requires Good(s) && Possible(s, e) && !e.ImportConfig?
    ensures Good(StepPage(s, e))
  {
    hide MountSlot, EditSlot, EditEnabled, DefaultSlot, Import, ConsistentSlot;
    StepChained(s, e);
    match e
    case SelectTab(i) => MountIsConsistent(s.slots[i]);
    case Choose(mlfb) =>
      DefaultIsConsistent(mlfb);
      MountIsConsistent(DefaultSlot(mlfb));
      NoneIsConsistent();
    case Edit(d) => EditIsConsistent(s.slots[s.cur], d);
  }

  lemma NoneIsConsistent()
    ensures ConsistentSlot(NoneSlot)
  {
  }

  /** The page after a run of events, if each was possible when it happened. */
  function Run(s: State, es: seq<Event>): Option<State> {
    if es == [] then Some(s)
    else
      match Run(s, es[..|es| - 1])
      case None => None
      case Some(t) => if Possible(t, es[|es| - 1]) then Some(StepPage(t, es[|es| - 1])) else None
  }

  predicate NoImport(es: seq<Event>) {
    forall e :: e in es ==> !e.ImportConfig?
  }

  lemma {:induction false} RunGood(s: State, es: seq<Event>)
    requires Good(s) && NoImport(es) && Run(s, es).Some?
    ensures Good(Run(s, es).value)
  {
    hide Good, Possible, StepPage;
    if es != [] {
      RunGood(s, es[..|es| - 1]);
      StepGood(Run(s, es[..|es| - 1]).value, es[|es| - 1]);
    }
  }

  lemma {:induction false} RunChained(s: State, es: seq<Event>)
    requires Chained(s) && NoImport(es) && Run(s, es).Some?
    ensures Chained(Run(s, es).value)
  {
    hide Chained, Possible, StepPage;
    if es != [] {
      RunChained(s, es[..|es| - 1]);
      StepChained(Run(s, es[..|es| - 1]).value, es[|es| - 1]);
    }
  }

  lemma InitialGood()
    ensures Good(INITIAL)
  {
  }

  // ---------- what a good page exports ----------

  lemma ConsistentExport(u: UiSlot)
    requires ConsistentSlot(u)
    ensures Shaped(u) && SlotValid(ExportSlot(u))
    ensures Writable(Produce(ExportSlot(u).mlfb), ExportSlot(u).body)
    ensures ExportSlot(u).mlfb == NO_MODULE <==> u.NoneSlot?
  {
    hide D.ToDevice, R.ToDevice, A.ToDevice, M.ToDevice, D.InputToDevice, SlotValid, Writable, D.Consistent,
         R.PageConsistent, A.PageConsistent, ML.Consistent, RStrip;
    ConsistentIsShaped(u);
    match u
    case NoneSlot => PlainValid();
    case SensDiSlot => PlainValid();
    case DigitalSlot(p) => DigitalExport(p);
    case InputSlot(p) => InputExport(p);
    case RtdSlot(p) => RtdExport(p);
    case AiSlot(p) => AiExport(p);
    case MeterSlot(p) => MeterExport(p);
  }

  lemma PlainValid()
    ensures SlotValid(SlotConfig("No module for this slot", NO_MODULE, Plain))
    ensures SlotValid(SlotConfig("SM SENS DI", SM_SENS_DI, Plain))
    ensures Writable(Produce(NO_MODULE), Plain) && Writable(Produce(SM_SENS_DI), Plain)
    ensures NO_MODULE != SM_SENS_DI
  {
  }

  lemma DigitalExport(p: D.Page)
    requires D.Consistent(p)
    ensures SlotValid(D.ToDevice(p)) && Writable(Produce(D.ToDevice(p).mlfb), D.ToDevice(p).body)
    ensures D.ToDevice(p).mlfb != NO_MODULE
  {
    hide SlotValid, D.ToDevice, Writable, Produce;
    D.ConsistentIsValid(p);
    D.HeadKept(p);
  }

  lemma InputExport(p: D.InputPage)
    requires D.InputConsistent(p)
    ensures SlotValid(D.InputToDevice(p)) && Writable(Produce(D.InputToDevice(p).mlfb), D.InputToDevice(p).body)
    ensures D.InputToDevice(p).mlfb != NO_MODULE
  {
    hide SlotValid, RStrip, UiToYaml;
    D.InputConsistentIsValid(p);
  }

  lemma RtdExport(p: R.Page)
    requires R.PageConsistent(p)
    ensures SlotValid(R.ToDevice(p)) && Writable(Produce(R.ToDevice(p).mlfb), R.ToDevice(p).body)
    ensures R.ToDevice(p).mlfb != NO_MODULE
  {
    hide SlotValid, RStrip, UiToYaml, R.Consistent;
    R.PageIsValid(p);
  }

  lemma AiExport(p: A.Page)
    requires A.PageConsistent(p)
    ensures SlotValid(A.ToDevice(p)) && Writable(Produce(A.ToDevice(p).mlfb), A.ToDevice(p).body)
    ensures A.ToDevice(p).mlfb != NO_MODULE
  {
    hide SlotValid, RStrip, UiToYaml, A.AllConsistent;
    A.PageIsValid(p);
  }

  lemma MeterExport(p: M.Page)
    requires ML.Consistent(p)
    ensures |p.channels| == 3 && SlotValid(M.ToDevice(p))
    ensures Writable(Produce(M.ToDevice(p).mlfb), M.ToDevice(p).body) && M.ToDevice(p).mlfb != NO_MODULE
  {
    hide SlotValid, RStrip, UiToYaml, M.ToDevice, ML.Sound, M.VariantsFor;
    ML.SoundIsValid(p);
    ML.ShapeOfSound(p);
    M.HeadShape(p);
    M.DeviceIs(p);
    MeterNumber(p);
    forall c | c in M.ToDevice(p).body.phases
      ensures !Within(c.vtSecondVol, 0x1_0000, 99999)
    {
      var i :| 0 <= i < 3 && M.ToDevice(p).body.phases[i] == c;
      assert ML.ChannelConsistent(p.conType, i, p.channels[i]);
    }
  }

  lemma MeterNumber(p: M.Page)
    requires ML.Sound(p)
    ensures p.mlfb == SM1238
  {
  }

  lemma ExportedAt(us: seq<UiSlot>)
    requires AllShaped(us)
    ensures forall i: nat :: i in Export(us) <==> 1 <= i <= |us|
    ensures forall i: nat :: i in Export(us) ==> Export(us)[i] == ExportSlot(us[i - 1])
  {
    hide ExportSlot, Shaped;
  }

  /** Both validations pass. */
  ghost predicate Accepted(us: seq<UiSlot>) {
    AllShaped(us) && SchemaValid(Export(us)) && WellShapedConfig(Export(us)) && SemanticallyValid(Export(us))
  }

  predicate HoleFree(slots: seq<UiSlot>) {
    forall i :: 0 < i < |slots| && !slots[i].NoneSlot? ==> !slots[i - 1].NoneSlot?
  }

  ghost predicate PairsAgree(slot: SlotConfig) {
    (AiChannels(slot.mlfb) > 0 ==> slot.body.AiBody? && |slot.body.ai| == AiChannels(slot.mlfb)) && PairConsistent(slot)
  }

  /** What a slot contributes to a configuration that both validations accept. */
  ghost predicate ExportsWell(u: UiSlot) {
    && Shaped(u) && SlotValid(ExportSlot(u)) && PairsAgree(ExportSlot(u))
    && (ExportSlot(u).mlfb == NO_MODULE <==> u.NoneSlot?)
  }

  lemma ChainedExport(slots: seq<UiSlot>)
    requires |slots| == SLOTS && HoleFree(slots) && forall i :: 0 <= i < SLOTS ==> ExportsWell(slots[i])
    ensures Accepted(slots)
  {
    hide ExportSlot, Shaped, SlotValid, PairConsistent, AiChannels, Export, WellShaped, Produce;
    ExportedAt(slots);
    var config := Export(slots);
    forall i | i in config
      ensures SlotValid(config[i]) && WellShaped(Produce(config[i].mlfb), config[i].body)
    {
      assert ExportsWell(slots[i - 1]);
      ValidShape(config[i]);
    }
    forall i | 1 <= i <= SLOTS
      ensures PairsAt(config, i)
    {
      assert ExportsWell(slots[i - 1]);
    }
    forall i, j | 1 <= i < j <= SLOTS && i in config && j in config && Occupied(config, j)
      ensures Occupied(config, i)
    {
      assert ExportsWell(slots[i - 1]) && ExportsWell(slots[j - 1]);
      ChainDown(slots, i - 1, j - 1);
    }
  }

  lemma ConsistentExportsWell(u: UiSlot)
    requires ConsistentSlot(u)
    ensures ExportsWell(u) && Writable(Produce(ExportSlot(u).mlfb), ExportSlot(u).body)
  {
    hide ExportSlot, Shaped, SlotValid, Writable, ConsistentSlot, PairConsistent, AiChannels, WellShaped, Produce;
    ConsistentExport(u);
    ValidShape(ExportSlot(u));
    PairsExported(u);
  }

  /** A page whose modules fill a prefix of the slots and whose slots are consistent exports a
      configuration that passes the schemas and the semantic validation, and that can be written as a
      blob. */
  lemma GoodExport(s: State)
    requires Good(s)
    ensures Accepted(s.slots) && WritableSlots(Export(s.slots))
  {
    hide ExportSlot, Shaped, Writable, ConsistentSlot, Export, WellShaped, Produce, ExportsWell, SlotValid;
    forall i | 0 <= i < SLOTS
      ensures ExportsWell(s.slots[i]) && Shaped(s.slots[i])
      ensures WellShaped(Produce(ExportSlot(s.slots[i]).mlfb), ExportSlot(s.slots[i]).body)
      ensures Writable(Produce(ExportSlot(s.slots[i]).mlfb), ExportSlot(s.slots[i]).body)
    {
      ConsistentExport(s.slots[i]);
      ValidShape(ExportSlot(s.slots[i]));
      ConsistentExportsWell(s.slots[i]);
    }
    ChainedExport(s.slots);
    ExportedAt(s.slots);
  }

  lemma ValidShape(slot: SlotConfig)
    requires SlotValid(slot)
    ensures WellShaped(Produce(slot.mlfb), slot.body)
  {
  }

  lemma {:induction false} ChainDown(slots: seq<UiSlot>, i: nat, j: nat)
    requires |slots| == SLOTS && i <= j < SLOTS && !slots[j].NoneSlot?
    requires forall k :: 0 < k < SLOTS && !slots[k].NoneSlot? ==> !slots[k - 1].NoneSlot?
    ensures !slots[i].NoneSlot?
  {
    if i < j {
      ChainDown(slots, i, j - 1);
    }
  }

  lemma PairsExported(u: UiSlot)
    requires ConsistentSlot(u) && Shaped(u) && WellShaped(Produce(ExportSlot(u).mlfb), ExportSlot(u).body)
    ensures AiChannels(ExportSlot(u).mlfb) > 0
            ==> ExportSlot(u).body.AiBody? && |ExportSlot(u).body.ai| == AiChannels(ExportSlot(u).mlfb)
    ensures PairConsistent(ExportSlot(u))
  {
    hide D.ToDevice, D.InputToDevice, R.ToDevice, A.ToDevice, M.ToDevice, Produce, WellShaped, D.Consistent,
         D.InputConsistent, R.PageConsistent, ML.Consistent, A.PageConsistent, AiChannels, PairConsistent;
    AiShape(ExportSlot(u));
    if u.AiSlot? {
      AiPairs(u.ai);
    } else {
      OtherNumbers(u);
      NoPairs(ExportSlot(u));
    }
  }

  lemma OtherNumbers(u: UiSlot)
    requires Shaped(u) && !u.AiSlot?
    ensures AiChannels(ExportSlot(u).mlfb) == 0
  {
    hide UiToYaml;
  }

  lemma NoPairs(slot: SlotConfig)
    requires AiChannels(slot.mlfb) == 0
    ensures PairConsistent(slot)
  {
  }

  lemma AiPairs(p: A.Page)
    requires A.PageConsistent(p)
    ensures var slot := A.ToDevice(p);
      && slot.body.AiBody? && |slot.body.ai| == AiChannels(slot.mlfb) && PairConsistent(slot)
  {
    hide UiToYaml, A.AllConsistent, SlotValid, RStrip;
    A.PageIsValid(p);
  }

  /** Every run of the page without an import ends with a configuration that is accepted and can be
      written: modules fill a prefix of the slots, the selected tab could be selected, and analog
      channel types agree in pairs. */
  lemma EveryRunIsAccepted(es: seq<Event>)
    requires NoImport(es) && Run(INITIAL, es).Some?
    ensures Chained(Run(INITIAL, es).value)
    ensures Accepted(Run(INITIAL, es).value.slots) && WritableSlots(Export(Run(INITIAL, es).value.slots))
  {
    hide Run, Export, Accepted, WritableSlots, ConsistentSlot, Chained;
    InitialGood();
    RunGood(INITIAL, es);
    GoodExport(Run(INITIAL, es).value);
  }

  // ---------- imports ----------

  /** An article number under which the page shows a module. */
  predicate Fills(config: Config, i: nat)
    requires i in config
  {
    !PageKind(config[i].mlfb).NoModule?
  }

  /** The imported modules fill a prefix of the slots that reaches the selected tab. */
  predicate ReachesTab(config: Config, cur: nat)
    requires forall i :: 1 <= i <= SLOTS ==> i in config
    requires cur < SLOTS
  {
    && (forall i :: 1 < i <= SLOTS && Fills(config, i) ==> Fills(config, i - 1))
    && (cur > 0 ==> Fills(config, cur))
  }

  lemma {:induction false} ImportedAt(config: Config, n: nat)
    requires AllDeviceShaped(config) && Import(config, n).Ok?
    ensures forall i :: 1 <= i <= n ==> i in config && ImportSlot(config[i]) == Ok(Import(config, n).value[i - 1])
  {
    hide ImportSlot, DeviceShaped;
    if n > 0 {
      ImportedAt(config, n - 1);
    }
  }

  lemma ImportedModule(slot: SlotConfig)
    requires DeviceShaped(slot) && ImportSlot(slot).Ok?
    ensures ImportSlot(slot).value.NoneSlot? <==> PageKind(slot.mlfb).NoModule?
  {
    hide PageKind, D.ToUi, D.InputToUi, R.ToUi, A.ToUi, M.ToUi, WellShaped;
  }

  lemma ReplacedKeepsModule(u: UiSlot, w: UiSlot)
    ensures Replaced(u, w).NoneSlot? <==> w.NoneSlot?
  {
  }

  /** The slots after an import that succeeds. */
  lemma ImportFills(s: State, config: Config)
    requires Possible(s, ImportConfig(config)) && Import(config, SLOTS).Ok?
    ensures forall i :: 1 <= i <= SLOTS ==> i in config
    ensures var t := StepPage(s, ImportConfig(config));
      && t.cur == s.cur && Sized(t)
      && forall i :: 0 <= i < SLOTS ==> (t.slots[i].NoneSlot? <==> !Fills(config, i + 1))
  {
    hide ImportSlot, Import, DeviceShaped, PageKind, Replaced;
    ImportedAt(config, SLOTS);
    var us := Import(config, SLOTS).value;
    forall i | 0 <= i < SLOTS
      ensures us[i].NoneSlot? <==> !Fills(config, i + 1)
    {
      assert ImportSlot(config[i + 1]) == Ok(us[(i + 1) - 1]);
      ImportedModule(config[i + 1]);
    }
    ReplacedKeepsModule(s.slots[s.cur], us[s.cur]);
  }

  /** An import leaves the selected tab where it was. Afterwards no run can make a hole exactly when
      the imported modules fill a prefix of the slots that reaches the selected tab. */
  lemma ImportMakesHolesIff(s: State, config: Config)
    requires Possible(s, ImportConfig(config)) && Import(config, SLOTS).Ok?
    ensures forall i :: 1 <= i <= SLOTS ==> i in config
    ensures var t := StepPage(s, ImportConfig(config));
      ReachesTab(config, s.cur) <==> forall es :: NoImport(es) && Run(t, es).Some? ==> HoleFree(Run(t, es).value.slots)
  {
    hide Run, StepPage, NoImport, Possible, Import, Fills;
    PossibleIsSized(s, ImportConfig(config));
    ImportFills(s, config);
    var t := StepPage(s, ImportConfig(config));
    if HoleFree(t.slots) {
      HolesIff(t);
    } else {
      NoEvents(t);
    }
    ReachIff(t, config);
  }

  lemma ReachIff(t: State, config: Config)
    requires Sized(t) && forall i :: 1 <= i <= SLOTS ==> i in config
    requires forall i :: 0 <= i < SLOTS ==> (t.slots[i].NoneSlot? <==> !Fills(config, i + 1))
    ensures ReachesTab(config, t.cur) <==> HoleFree(t.slots) && !TabDisabled(t.slots, t.cur)
  {
    hide Fills;
    forall i | 1 <= i <= SLOTS
      ensures Fills(config, i) <==> !t.slots[i - 1].NoneSlot?
    {
      assert t.slots[i - 1].NoneSlot? <==> !Fills(config, (i - 1) + 1);
    }
    if ReachesTab(config, t.cur) {
      forall i | 0 < i < SLOTS && !t.slots[i].NoneSlot?
        ensures !t.slots[i - 1].NoneSlot?
      {
        assert Fills(config, i + 1) && Fills(config, (i + 1) - 1);
      }
    }
  }

  lemma PossibleIsSized(s: State, e: Event)
    requires Possible(s, e)
    ensures Sized(s)
  {
  }

  lemma NoEvents(s: State)
    ensures NoImport([]) && Run(s, []) == Some(s)
  {
  }

  /** From a page without holes, no run can make a hole exactly when the selected tab is enabled. */
  lemma HolesIff(s: State)
    requires Sized(s) && HoleFree(s.slots)
    ensures !TabDisabled(s.slots, s.cur)
       <==> forall es :: NoImport(es) && Run(s, es).Some? ==> HoleFree(Run(s, es).value.slots)
  {
    hide Run, StepPage, NoImport;
    if TabDisabled(s.slots, s.cur) {
      HoleMade(s);
    } else {
      forall es | NoImport(es) && Run(s, es).Some?
        ensures HoleFree(Run(s, es).value.slots)
      {
        RunChained(s, es);
      }
    }
  }

  lemma HoleMade(s: State)
    requires Sized(s) && HoleFree(s.slots) && TabDisabled(s.slots, s.cur)
    ensures var es := [Choose(SM_SENS_DI)];
      NoImport(es) && Run(s, es).Some? && !HoleFree(Run(s, es).value.slots)
  {
    hide MountSlot, Import, DefaultSlot, Updated, EditEnabled;
    var e := Choose(SM_SENS_DI);
    SensDiChoosable();
    assert s.slots[s.cur].NoneSlot?;
    assert Possible(s, e);
    var t := StepPage(s, e);
    OneStep(s, e);
    MountKeepsModule(SensDiSlot);
    UpdatedAt(s.slots, s.cur, MountSlot(SensDiSlot));
    assert !t.slots[s.cur].NoneSlot? && t.slots[s.cur - 1].NoneSlot?;
  }

  lemma OneStep(s: State, e: Event)
    requires Possible(s, e)
    ensures Run(s, [e]) == Some(StepPage(s, e))
  {
    hide Possible, StepPage;
    assert [e][..0] == [] && Run(s, []) == Some(s);
  }

  lemma UpdatedAt(slots: seq<UiSlot>, index: nat, u: UiSlot)
    requires index < |slots|
    ensures Updated(slots, index, u)[index] == u
    ensures index > 0 ==> Updated(slots, index, u)[index - 1] == slots[index - 1]
  {
  }

  lemma SensDiChoosable()
    ensures SM_SENS_DI in MODULES && NumberOf(NoneSlot) != SM_SENS_DI && DefaultSlot(SM_SENS_DI) == SensDiSlot
  {
    assert |"None"| == 4 && |SM_SENS_DI| == 18;
  }

  const EMPTY_SLOT: SlotConfig := SlotConfig("", NO_MODULE, Plain)
  const EMPTY_CONFIG: Config := map i: nat | 1 <= i <= SLOTS :: EMPTY_SLOT

  /** Importing six empty slots, which both validations accept, while the second tab is shown. */
  const HOLE_RUN: seq<Event> := [Choose(SM_SENS_DI), SelectTab(1), ImportConfig(EMPTY_CONFIG), Choose(SM_SENS_DI)]

  lemma EmptyConfig()
    ensures SchemaValid(EMPTY_CONFIG) && WellShapedConfig(EMPTY_CONFIG) && SemanticallyValid(EMPTY_CONFIG)
    ensures AllDeviceShaped(EMPTY_CONFIG) && Import(EMPTY_CONFIG, SLOTS) == Ok(INITIAL.slots)
  {
    hide Import;
    PlainValid();
    assert ImportSlot(EMPTY_SLOT) == Ok(NoneSlot) by { PlainReturns(EMPTY_SLOT); }
    ImportAt(EMPTY_CONFIG, SLOTS, INITIAL.slots);
  }

  lemma ChooseSensDi(s: State)
    requires Sized(s) && s.slots[s.cur].NoneSlot?
    ensures Possible(s, Choose(SM_SENS_DI))
    ensures StepPage(s, Choose(SM_SENS_DI)) == s.(slots := s.slots[s.cur := SensDiSlot])
  {
    hide Import, DefaultSlot, EditEnabled;
    SensDiChoosable();
  }

  lemma FourEvents(s: State, a: Event, b: Event, c: Event, d: Event)
    requires Possible(s, a) && Possible(StepPage(s, a), b) && Possible(StepPage(StepPage(s, a), b), c)
    requires Possible(StepPage(StepPage(StepPage(s, a), b), c), d)
    ensures Run(s, [a, b, c, d]) == Some(StepPage(StepPage(StepPage(StepPage(s, a), b), c), d))
  {
    hide Possible, StepPage;
    var es := [a, b, c, d];
    assert es[..3] == [a, b, c] && es[..3][..2] == [a, b] && es[..3][..2][..1] == [a] && [a][..0] == [];
    assert Run(s, []) == Some(s);
    assert Run(s, [a]) == Some(StepPage(s, a));
    assert [a, b][..1] == [a];
    assert Run(s, [a, b]) == Some(StepPage(StepPage(s, a), b));
    assert [a, b, c][..2] == [a, b];
  }

  /** The page can reach a state with a hole from its start. */
  lemma HoleReached()
    ensures Run(INITIAL, HOLE_RUN).Some? && !HoleFree(Run(INITIAL, HOLE_RUN).value.slots)
  {
    hide Run, StepPage, Possible, Import, EMPTY_CONFIG;
    ChooseSensDi(INITIAL);
    var one := INITIAL.(slots := INITIAL.slots[0 := SensDiSlot]);
    ShowSecond(one);
    var two := State(1, one.slots);
    ImportEmpty(two);
    var three := State(1, INITIAL.slots);
    ChooseSensDi(three);
    FourEvents(INITIAL, Choose(SM_SENS_DI), SelectTab(1), ImportConfig(EMPTY_CONFIG), Choose(SM_SENS_DI));
    var slots := three.slots[1 := SensDiSlot];
    assert slots[0].NoneSlot? && !slots[1].NoneSlot? && Run(INITIAL, HOLE_RUN) == Some(State(1, slots));
  }

  lemma ShowSecond(s: State)
    requires Sized(s) && s.cur == 0 && !s.slots[0].NoneSlot? && s.slots[1].NoneSlot?
    ensures Possible(s, SelectTab(1)) && StepPage(s, SelectTab(1)) == State(1, s.slots)
  {
    hide Import, EditEnabled;
  }

  lemma ImportEmpty(s: State)
    requires Sized(s) && s.slots[s.cur].NoneSlot?
    ensures Possible(s, ImportConfig(EMPTY_CONFIG))
    ensures StepPage(s, ImportConfig(EMPTY_CONFIG)) == State(s.cur, INITIAL.slots)
  {
    hide Import, EditEnabled, EMPTY_CONFIG;
    EmptyConfig();
    assert INITIAL.slots[s.cur := NoneSlot] == INITIAL.slots;
  }
}
