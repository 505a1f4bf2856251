/** What an import does to everything that follows it on the configuration page. */
module ImportLaws {
  import opened Common
  import opened Modules
  import opened EioConfig
  import opened EioCodec
  import opened Schema
  import opened TextTables
  import opened SmConfig
  import opened SlotPage
  import D = DigitalPage
  import R = RtdPage
  import A = AiPage
  import M = MeterPage
  import ML = MeterLaws

  // ---------- settled pages ----------

  /** What the shown slot is after a harmless import: consistent, but for the menus of a meter, which
      need only be sound. */
  ghost predicate Settled(u: UiSlot) {
    match u
    case MeterSlot(p) => ML.Sound(p)
    case _ => ConsistentSlot(u)
  }

  /** What a slot that is not shown is. */
  ghost predicate Parked(u: UiSlot) {
    match u
    case AiSlot(p) => A.PageImportable(p)
    case _ => Settled(u)
  }

  lemma SettledParks(u: UiSlot)
    requires Settled(u)
    ensures Parked(u)
  {
    hide A.PageConsistent, A.PageImportable, ML.Sound, R.PageConsistent, D.Consistent, D.InputConsistent;
    if u.AiSlot? {
      A.PageConsistentImportable(u.ai);
    }
  }

  lemma ConsistentSettles(u: UiSlot)
    requires ConsistentSlot(u)
    ensures Settled(u)
  {
    hide ML.Sound;
  }

  lemma AiMountSettles(p: A.Page)
    requires A.PageImportable(p)
    ensures Settled(MountSlot(AiSlot(p)))
  {
    hide A.Importable, A.Consistent, A.Mounted;
    var us := MountSlot(AiSlot(p)).ai.channels;
    forall i | 0 <= i < |us|
      ensures A.Consistent(us[i]) && us[i].kind == p.channels[i].kind
    {
      assert p.channels[i] in p.channels;
      A.MountSettles(p.channels[i]);
    }
  }

  lemma MountSettles(u: UiSlot)
    requires Parked(u)
    ensures Settled(MountSlot(u))
  {
    hide ML.Sound, ML.Consistent, A.PageImportable, A.PageConsistent, R.PageConsistent, D.Consistent, R.Mounted,
         A.Mounted, M.Cleared;
    match u
    case AiSlot(p) => AiMountSettles(p);
    case MeterSlot(p) =>
      ML.ShapeOfSound(p);
      ML.ClearedSound(None, p);
    case _ => MountIsConsistent(u);
  }

  lemma EditSettles(u: UiSlot, e: SlotEdit)
    requires Settled(u) && EditEnabled(u, e)
    ensures Settled(EditSlot(u, e))
  {
    hide ML.Sound, ConsistentSlot, M.Enabled, M.Step, R.Enabled, A.Enabled, D.Enabled, R.Step, A.Step, D.Step, TextIn;
    if u.MeterSlot? {
      ML.StepSound(u.meter, e.meterEdit);
    } else {
      EditIsConsistent(u, e);
      EditKeepsKind(u, e);
    }
  }

  lemma EditKeepsKind(u: UiSlot, e: SlotEdit)
    requires EditEnabled(u, e)
    ensures EditSlot(u, e).MeterSlot? <==> u.MeterSlot?
  {
    hide M.Enabled, M.Step, R.Enabled, A.Enabled, D.Enabled, R.Step, A.Step, D.Step, TextIn;
  }

  lemma ParkedExportsWell(u: UiSlot)
    requires Parked(u)
    ensures ExportsWell(u)
  {
    hide ML.Sound, A.PageImportable, ConsistentSlot, ExportsWell;
    match u
    case AiSlot(p) => AiExportsWell(p);
    case MeterSlot(p) => MeterExportsWell(p);
    case _ => ConsistentExportsWell(u);
  }

  lemma AiExportsWell(p: A.Page)
    requires A.PageImportable(p)
    ensures ExportsWell(AiSlot(p))
  {
    hide A.PageImportable, A.ToDevice, AiChannels, SlotValid;
    A.PageImportableIsValid(p);
    AiHead(p);
  }

  lemma AiHead(p: A.Page)
    requires A.PageImportable(p)
    ensures |p.channels| == A.ChannelNums(p.mlfb) && A.AiNumber(p.mlfb) && p.mlfb != NO_MODULE
    ensures A.ToDevice(p).mlfb == p.mlfb && AiChannels(p.mlfb) == A.ChannelNums(p.mlfb)
    ensures A.ToDevice(p).body.AiBody? && |A.ToDevice(p).body.ai| == |p.channels|
  {
    hide A.Importable, A.Paired, A.ToDeviceChannel, UiToYaml;
  }

  lemma MeterExportsWell(p: M.Page)
    requires ML.Sound(p)
    ensures ExportsWell(MeterSlot(p))
  {
    hide ML.Sound, M.ToDevice, SlotValid, RStrip;
    ML.SoundIsValid(p);
    ML.ShapeOfSound(p);
    MeterNumber(p);
    M.HeadShape(p);
  }

  // ---------- sane states ----------

  ghost predicate Sane(s: State) {
    Chained(s) && Settled(s.slots[s.cur]) && forall i :: 0 <= i < SLOTS ==> Parked(s.slots[i])
  }

  lemma StepSane(s: State, e: Event)
    requires Sane(s) && Possible(s, e) && !e.ImportConfig?
    ensures Sane(StepPage(s, e))
  {
    hide Chained, Settled, Parked, MountSlot, EditSlot, EditEnabled, DefaultSlot, Import, ConsistentSlot;
    StepChained(s, e);
    match e
    case SelectTab(i) =>
      MountSettles(s.slots[i]);
      SettledParks(MountSlot(s.slots[i]));
    case Choose(mlfb) =>
      DefaultIsConsistent(mlfb);
      MountIsConsistent(DefaultSlot(mlfb));
      ConsistentSettles(MountSlot(DefaultSlot(mlfb)));
      SettledParks(MountSlot(DefaultSlot(mlfb)));
      NoneParks();
    case Edit(d) =>
      EditSettles(s.slots[s.cur], d);
      SettledParks(EditSlot(s.slots[s.cur], d));
  }

  lemma NoneParks()
    ensures Parked(NoneSlot)
  {
  }

  lemma {:induction false} RunSane(s: State, es: seq<Event>)
    requires Sane(s) && NoImport(es) && Run(s, es).Some?
    ensures Sane(Run(s, es).value)
  {
    hide Sane, Possible, StepPage;
    if es != [] {
      RunSane(s, es[..|es| - 1]);
      StepSane(Run(s, es[..|es| - 1]).value, es[|es| - 1]);
    }
  }

  lemma SaneIsAccepted(s: State)
    requires Sane(s)
    ensures Accepted(s.slots)
  {
    hide Settled, Parked, ExportsWell, Accepted;
    forall i | 0 <= i < SLOTS
      ensures ExportsWell(s.slots[i])
    {
      ParkedExportsWell(s.slots[i]);
    }
    ChainedExport(s.slots);
  }

  lemma InitialSane()
    ensures Sane(INITIAL)
  {
  }

  // ---------- harmless imports ----------

  /** Whatever is edited on this slot after its import, it stays valid. */
  predicate HarmlessSlot(slot: SlotConfig) {
    && (slot.body.RtdBody? ==> forall c :: c in slot.body.rtd ==> R.Harmless(c))
    && (slot.body.MeterBody? ==> ML.Harmless(slot.body.meter))
  }

  /** No alarm of the imported slot slips past the boxes of the shown one. */
  predicate NoSlip(u: UiSlot, slot: SlotConfig) {
    u.AiSlot? && slot.body.AiBody? && u.ai.mlfb == slot.mlfb && |u.ai.channels| == |slot.body.ai| ==>
      forall i :: 0 <= i < |slot.body.ai| ==> !A.Slips(u.ai.channels[i], slot.body.ai[i])
  }

  /** A slot that the schema accepts and the page can show. */
  predicate Importable(slot: SlotConfig) {
    SlotValid(slot) && DeviceShaped(slot) && ImportSlot(slot).Ok?
  }

  lemma AiParked(slot: SlotConfig)
    requires Importable(slot) && PageKind(slot.mlfb).Ai? && PairsAgree(slot)
    ensures ImportSlot(slot).value.AiSlot? && Parked(ImportSlot(slot).value)
  {
    hide A.ToUi, A.PageImportable, AiChannelValid, RStrip, NUMBERS, PageKind;
    NumbersKeep(slot.mlfb);
    ShapesMeet(slot);
    A.PageImported(slot);
  }

  lemma HarmlessParked(slot: SlotConfig)
    requires Importable(slot) && HarmlessSlot(slot) && PairsAgree(slot)
    ensures Parked(ImportSlot(slot).value)
  {
    hide D.ToUi, D.InputToUi, R.ToUi, A.ToUi, M.ToUi, D.Consistent, D.InputConsistent, R.PageConsistent, ML.Sound,
         Parked, AiChannelValid, RtdChannelValid, MeterModuleValid, MeterChannelValid, R.Harmless, ML.Harmless,
         PairsAgree, RStrip, NUMBERS, PageKind;
    NumbersKeep(slot.mlfb);
    ShapesMeet(slot);
    if PageKind(slot.mlfb).Ai? {
      AiParked(slot);
    } else {
      OtherParked(slot);
    }
  }

  lemma OtherParked(slot: SlotConfig)
    requires Importable(slot) && HarmlessSlot(slot) && !PageKind(slot.mlfb).Ai?
    ensures Parked(ImportSlot(slot).value)
  {
    hide D.ToUi, D.InputToUi, R.ToUi, A.ToUi, M.ToUi, D.Consistent, D.InputConsistent, R.PageConsistent, ML.Sound,
         AiChannelValid, RtdChannelValid, MeterModuleValid, MeterChannelValid, R.Harmless, ML.Harmless, RStrip,
         NUMBERS, PageKind;
    NumbersKeep(slot.mlfb);
    ShapesMeet(slot);
    match PageKind(slot.mlfb)
    case Sm1223(_) => D.ImportConsistent(slot);
    case Rtd(_) => R.PageImported(slot);
    case Meter => ML.ImportSound(slot);
    case Sm1221 => D.InputImportConsistent(slot);
    case _ =>
  }

  /** The channels of an AI page that replaces the shown one. */
  lemma AiReplaced(p: A.Page, slot: SlotConfig)
    requires Importable(slot) && A.AiNumber(slot.mlfb) && p.mlfb == slot.mlfb && |p.channels| == A.ChannelNums(p.mlfb)
    ensures slot.body.AiBody? && |slot.body.ai| == |p.channels| && ImportSlot(slot) == Ok(AiSlot(A.ToUi(slot)))
    ensures Replaced(AiSlot(p), AiSlot(A.ToUi(slot)))
         == AiSlot(A.ToUi(slot).(channels := A.ReplacedBy(p.channels, slot.body.ai)))
  {
    hide A.ToUiChannel, A.Cleared, AiChannelValid, RStrip, PageKind, YamlToUi;
    NumbersKeep(slot.mlfb);
    ShapesMeet(slot);
    var q := A.ToUi(slot);
    assert NumberOf(AiSlot(p)) == NumberOf(AiSlot(q));
    assert Replaced(AiSlot(p), AiSlot(q)).ai.channels == A.ReplacedBy(p.channels, slot.body.ai);
  }

  lemma KindOfBody(slot: SlotConfig)
    requires Importable(slot)
    ensures PageKind(slot.mlfb).Rtd? <==> slot.body.RtdBody?
    ensures PageKind(slot.mlfb).Ai? <==> slot.body.AiBody?
    ensures PageKind(slot.mlfb).Meter? <==> slot.body.MeterBody?
    ensures PageKind(slot.mlfb).NoModule? <==> slot.mlfb == NO_MODULE
  {
    hide RStrip, ImportSlot, RtdChannelValid, AiChannelValid, MeterModuleValid, MeterChannelValid;
    NumbersKeep(slot.mlfb);
  }

  /** Nothing is cleared when an imported RTD slot is shown. */
  lemma RtdShown(u: UiSlot, slot: SlotConfig)
    requires Shaped(u) && Importable(slot) && slot.body.RtdBody?
    ensures R.RtdNumber(slot.mlfb) && |slot.body.rtd| == R.ChannelNums(slot.mlfb)
    ensures ImportSlot(slot) == Ok(RtdSlot(R.ToUi(slot)))
    ensures MountSlot(RtdSlot(R.ToUi(slot))) == RtdSlot(R.ToUi(slot))
    ensures Replaced(u, RtdSlot(R.ToUi(slot))) == RtdSlot(R.ToUi(slot))
  {
    hide R.ToUiChannel, R.Cleared, RtdChannelValid, RStrip, PageKind, YamlToUi, R.OffOrResistor, NUMBERS;
    KindOfBody(slot);
    NumbersKeep(slot.mlfb);
    ShapesMeet(slot);
    var q := R.ToUi(slot);
    forall i, a, b | 0 <= i < |q.channels|
      ensures R.Cleared(a, b, q.channels[i]) == q.channels[i]
    {
      assert slot.body.rtd[i] in slot.body.rtd;
      R.ImportClear(slot.body.rtd[i], i, a, b);
    }
    assert MountSlot(RtdSlot(q)).rtd.channels == q.channels;
    if NumberOf(u) == NumberOf(RtdSlot(q)) {
      assert u.RtdSlot?;
      assert Replaced(u, RtdSlot(q)).rtd.channels == q.channels;
    }
  }

  function ShownConType(u: UiSlot): Option<UiText> {
    if u.MeterSlot? then Some(u.meter.conType) else None
  }

  lemma MeterImported(slot: SlotConfig)
    requires Importable(slot) && slot.body.MeterBody?
    ensures M.DeviceShaped(slot) && |M.ToUi(slot).channels| == 3 && BodyValid(Meter, slot.body)
    ensures ImportSlot(slot) == Ok(MeterSlot(M.ToUi(slot))) && M.ToUi(slot).mlfb == SM1238
  {
    hide M.ToUi, MeterModuleValid, MeterChannelValid, RStrip, PageKind, NUMBERS;
    KindOfBody(slot);
    NumbersKeep(slot.mlfb);
    ShapesMeet(slot);
    ML.ThreeChannels(slot);
  }

  lemma MeterShown(u: UiSlot, p: M.Page)
    requires Shaped(u) && Shaped(MeterSlot(p))
    ensures MountSlot(MeterSlot(p)) == MeterSlot(M.Cleared(None, p))
    ensures Replaced(u, MeterSlot(p)) == MeterSlot(M.Cleared(ShownConType(u), p))
  {
    hide M.Cleared;
    if NumberOf(u) == NumberOf(MeterSlot(p)) {
      assert u.MeterSlot?;
    }
  }

  lemma MeterShaped(p: M.Page)
    requires p.mlfb == SM1238 && |p.channels| == 3
    ensures Shaped(MeterSlot(p))
  {
  }

  lemma PlainShown(u: UiSlot, w: UiSlot)
    requires !w.RtdSlot? && !w.AiSlot? && !w.MeterSlot?
    ensures MountSlot(w) == w && Replaced(u, w) == w
  {
  }

  lemma AiShownSettles(u: UiSlot, slot: SlotConfig)
    requires Shaped(u) && Importable(slot) && slot.body.AiBody? && PairsAgree(slot) && NoSlip(u, slot)
    ensures Settled(Replaced(u, ImportSlot(slot).value))
  {
    hide A.Slips, A.ToUi, AiChannelValid, RStrip, PageKind, NUMBERS, Settled, Parked, Replaced, PairsAgree, MountSlot;
    KindOfBody(slot);
    AiSlotIs(slot);
    AiParked(slot);
    ToUiNumber(slot);
    if NumberOf(u) != slot.mlfb {
      MountSettles(ImportSlot(slot).value);
      ReplacedIsMount(u, ImportSlot(slot).value);
    } else {
      assert u.AiSlot?;
      AiSettles(u.ai, slot);
    }
  }

  lemma ToUiNumber(slot: SlotConfig)
    requires slot.body.AiBody? && |slot.body.ai| == A.ChannelNums(slot.mlfb)
    ensures A.ToUi(slot).mlfb == slot.mlfb
  {
  }

  lemma ReplacedIsMount(u: UiSlot, w: UiSlot)
    requires NumberOf(u) != NumberOf(w)
    ensures Replaced(u, w) == MountSlot(w)
  {
  }

  lemma AiSettles(p: A.Page, slot: SlotConfig)
    requires Importable(slot) && A.AiNumber(slot.mlfb) && p.mlfb == slot.mlfb && |p.channels| == A.ChannelNums(p.mlfb)
    requires PairsAgree(slot) && NoSlip(AiSlot(p), slot)
    ensures Settled(Replaced(AiSlot(p), ImportSlot(slot).value))
  {
    hide A.Cleared, A.ToUiChannel, A.Slips, A.Consistent, AiChannelValid, RStrip, PageKind, NUMBERS, Replaced, YamlToUi;
    AiReplaced(p, slot);
    KindOfBody(slot);
    NumbersKeep(slot.mlfb);
    A.AiTranslates(0);
    var us := A.ReplacedBy(p.channels, slot.body.ai);
    forall i | 0 <= i < |us|
      ensures A.Consistent(us[i]) && A.KindShown(us[i], slot.body.ai[i])
    {
      assert slot.body.ai[i] in slot.body.ai;
      A.ReplacedConsistentIff(p.channels[i], slot.body.ai[i], i);
    }
  }

  lemma ReplacedSettles(u: UiSlot, slot: SlotConfig)
    requires Shaped(u) && Importable(slot) && HarmlessSlot(slot) && PairsAgree(slot) && NoSlip(u, slot)
    ensures Settled(Replaced(u, ImportSlot(slot).value))
  {
    hide Shaped, ImportSlot, Replaced, MountSlot, PairsAgree, NoSlip, HarmlessSlot, SlotValid, DeviceShaped, PageKind,
         R.ToUi, M.ToUi, R.PageConsistent, ML.Sound, M.Cleared;
    KindOfBody(slot);
    HarmlessParked(slot);
    ShownKind(slot);
    if slot.body.AiBody? {
      AiShownSettles(u, slot);
    } else if slot.body.RtdBody? {
      RtdShown(u, slot);
    } else if slot.body.MeterBody? {
      MeterImported(slot);
      MeterShaped(M.ToUi(slot));
      MeterShown(u, M.ToUi(slot));
      ML.ClearedSound(ShownConType(u), M.ToUi(slot));
    } else {
      PlainShown(u, ImportSlot(slot).value);
    }
  }

  lemma ShownKind(slot: SlotConfig)
    requires Importable(slot)
    ensures var w := ImportSlot(slot).value;
      && (w.RtdSlot? <==> PageKind(slot.mlfb).Rtd?) && (w.AiSlot? <==> PageKind(slot.mlfb).Ai?)
      && (w.MeterSlot? <==> PageKind(slot.mlfb).Meter?) && (w.NoneSlot? <==> PageKind(slot.mlfb).NoModule?)
  {
    hide D.ToUi, D.InputToUi, R.ToUi, A.ToUi, M.ToUi, PageKind, SlotValid, DeviceShaped;
  }

  // ---------- edits of the shown slot ----------

  /** A slot after a run of edits, if each was possible when it was made. */
  function EditRun(u: UiSlot, es: seq<SlotEdit>): Option<UiSlot> {
    if es == [] then Some(u)
    else
      match EditRun(u, es[..|es| - 1])
      case None => None
      case Some(w) => if EditEnabled(w, es[|es| - 1]) then Some(EditSlot(w, es[|es| - 1])) else None
  }

  function Edits(es: seq<SlotEdit>): (fs: seq<Event>)
    ensures |fs| == |es| && NoImport(fs)
  {
    seq(|es|, i requires 0 <= i < |es| => Edit(es[i]))
  }

  lemma {:induction false} EditsRun(s: State, pre: seq<Event>, es: seq<SlotEdit>)
    requires Run(s, pre).Some? && Sized(Run(s, pre).value)
    requires EditRun(Run(s, pre).value.slots[Run(s, pre).value.cur], es).Some?
    ensures var t := Run(s, pre).value;
      Run(s, pre + Edits(es)) == Some(t.(slots := t.slots[t.cur := EditRun(t.slots[t.cur], es).value]))
  {
    hide EditEnabled, EditSlot, Import, MountSlot, DefaultSlot;
    var t := Run(s, pre).value;
    if es == [] {
      assert pre + Edits(es) == pre;
      assert t.slots[t.cur := t.slots[t.cur]] == t.slots;
    } else {
      var init := es[..|es| - 1];
      EditsRun(s, pre, init);
      var all := pre + Edits(es);
      assert all[..|all| - 1] == pre + Edits(init) && all[|all| - 1] == Edit(es[|es| - 1]);
      var u, w := EditRun(t.slots[t.cur], init).value, EditRun(t.slots[t.cur], es).value;
      assert t.slots[t.cur := u][t.cur := w] == t.slots[t.cur := w];
    }
  }

  predicate Spoiled(u: UiSlot) {
    Shaped(u) && !SlotValid(ExportSlot(u))
  }

  ghost predicate Spoilable(u: UiSlot) {
    exists es :: EditRun(u, es).Some? && Spoiled(EditRun(u, es).value)
  }

  lemma OneEdit(u: UiSlot, e: SlotEdit)
    requires EditEnabled(u, e) && Spoiled(EditSlot(u, e))
    ensures Spoilable(u)
  {
    hide EditEnabled, EditSlot, Spoiled;
    var es := [e];
    assert es[..0] == [] && EditRun(u, []) == Some(u);
    assert EditRun(u, es) == Some(EditSlot(u, e));
  }

  function OnChannel(k: nat, es: seq<R.Edit>): (fs: seq<SlotEdit>)
    ensures |fs| == |es|
  {
    seq(|es|, i requires 0 <= i < |es| => OnRtd(k, es[i]))
  }

  lemma {:induction false} ChannelRun(p: R.Page, k: nat, es: seq<R.Edit>)
    requires k < |p.channels| && R.Allowed(p.channels[k], es)
    ensures EditRun(RtdSlot(p), OnChannel(k, es))
            == Some(RtdSlot(p.(channels := p.channels[k := R.Run(p.channels[k], es)])))
  {
    hide R.Step, R.Enabled;
    if es == [] {
      assert p.channels[k := p.channels[k]] == p.channels;
    } else {
      var init := es[..|es| - 1];
      ChannelRun(p, k, init);
      assert OnChannel(k, es)[..|es| - 1] == OnChannel(k, init) && OnChannel(k, es)[|es| - 1] == OnRtd(k, es[|es| - 1]);
      var c, d := R.Run(p.channels[k], init), R.Run(p.channels[k], es);
      assert p.channels[k := c][k := d] == p.channels[k := d];
    }
  }

  lemma RtdSpoiled(p: R.Page, k: nat)
    requires Shaped(RtdSlot(p)) && k < |p.channels| && !RtdChannelValid(R.ToDeviceChannel(p.channels[k], k))
    ensures Spoiled(RtdSlot(p))
  {
    hide R.ToDeviceChannel, RtdChannelValid, UiToYaml;
    assert RStrip(SM1231_4RTD) == SM1231_4RTD && RStrip(SM1231_8RTD) == SM1231_8RTD;
    assert R.ToDevice(p).body.rtd[k] == R.ToDeviceChannel(p.channels[k], k);
  }

  lemma RtdSpoils(slot: SlotConfig, k: nat)
    requires R.RtdNumber(slot.mlfb) && slot.body.RtdBody? && |slot.body.rtd| == R.ChannelNums(slot.mlfb)
    requires k < |slot.body.rtd| && RtdChannelValid(slot.body.rtd[k]) && !R.Harmless(slot.body.rtd[k])
    ensures Spoilable(RtdSlot(R.ToUi(slot)))
  {
    hide R.ToUiChannel, R.ToDeviceChannel, RtdChannelValid, R.Harmless, R.Run, R.Allowed, YamlToUi, Spoiled, EditRun;
    var c := slot.body.rtd[k];
    var p := R.ToUi(slot);
    R.HarmfulRun(c, k);
    var es :| R.Allowed(R.ToUiChannel(c, k), es)
                && !RtdChannelValid(R.ToDeviceChannel(R.Run(R.ToUiChannel(c, k), es), k));
    assert p.channels[k] == R.ToUiChannel(c, k);
    ChannelRun(p, k, es);
    RtdSpoiled(p.(channels := p.channels[k := R.Run(p.channels[k], es)]), k);
  }

  /** The edit that makes the first channel of j's pair, and j with it, a current channel. */
  function MakeCurrent(j: nat): SlotEdit {
    OnAi(A.PairToCurrent(j).index, A.PairToCurrent(j).edit)
  }

  lemma CurrentSpoils(p: A.Page, j: nat)
    requires Shaped(AiSlot(p)) && j < |p.channels|
    requires p.channels[j].kind == A.VOLTAGE && p.channels[j].openWire == Flag(true)
    ensures EditEnabled(AiSlot(p), MakeCurrent(j)) && Spoiled(EditSlot(AiSlot(p), MakeCurrent(j)))
  {
    hide A.ToDeviceChannel, AiChannelValid, A.Step, Spoiled;
    var change := A.PairToCurrent(j);
    var us := p.channels;
    A.SlippedThenChanged(us, j);
    assert [change][..0] == [] && A.Run(us, []) == Some(us);
    assert EditEnabled(AiSlot(p), MakeCurrent(j));
    AiSpoiled(p.(channels := A.Step(us, change.index, change.edit)), j);
  }

  lemma AiSpoiled(p: A.Page, k: nat)
    requires Shaped(AiSlot(p)) && k < |p.channels| && !AiChannelValid(A.ToDeviceChannel(p.channels[k], k))
    ensures Spoiled(AiSlot(p))
  {
    hide A.ToDeviceChannel, AiChannelValid, UiToYaml;
    assert RStrip(SM1231_4AI) == SM1231_4AI && RStrip(SM1231_8AI) == SM1231_8AI;
    assert A.ToDevice(p).body.ai[k] == A.ToDeviceChannel(p.channels[k], k);
  }

  lemma MeterSpoils(p: M.Page)
    requires ML.ModuleSound(p) && ML.OffersStray(p)
    ensures Spoilable(MeterSlot(p))
  {
    hide ML.ModuleSound, ML.OffersStray, M.Enabled, M.Step, M.ToDevice, SlotValid;
    ML.StrayChosen(p);
    ML.ShapeOfModule(p);
    var e := M.SelectVariant(ML.Stray(p.version.code));
    NumberStays(p, e);
    MeterShaped(M.Step(p, e));
    OneEdit(MeterSlot(p), OnMeter(e));
  }

  lemma NumberStays(p: M.Page, e: M.Edit)
    requires |p.channels| == 3 && e.SelectVariant?
    ensures M.Step(p, e).mlfb == p.mlfb
  {
  }

  lemma StrayStays(was: Option<UiText>, p: M.Page)
    requires ML.ModuleSound(p) && ML.OffersStray(p)
    ensures ML.ModuleSound(M.Cleared(was, p)) && ML.OffersStray(M.Cleared(was, p))
  {
    hide M.ClearedChannel, M.Dead, M.DirDisabled, TextIn;
  }

  lemma HarmfulMeter(u: UiSlot, slot: SlotConfig)
    requires Shaped(u) && Importable(slot) && slot.body.MeterBody? && !ML.Harmless(slot.body.meter)
    ensures Spoilable(MountSlot(ImportSlot(slot).value)) && Spoilable(Replaced(u, ImportSlot(slot).value))
  {
    hide M.ToUi, M.Cleared, ML.ModuleSound, Spoilable, SlotValid, Shaped, Replaced, MountSlot, MeterModuleValid,
         MeterChannelValid, DeviceShaped, PageKind, ImportSlot;
    MeterImported(slot);
    var p := M.ToUi(slot);
    MeterShaped(p);
    MeterShown(u, p);
    ML.ValidModule(slot.body.meter);
    ML.ImportModuleSound(slot);
    StrayStays(None, p);
    StrayStays(ShownConType(u), p);
    MeterSpoils(M.Cleared(None, p));
    MeterSpoils(M.Cleared(ShownConType(u), p));
  }

  lemma HarmfulRtd(u: UiSlot, slot: SlotConfig, c: RtdChannel)
    requires Shaped(u) && Importable(slot) && slot.body.RtdBody? && c in slot.body.rtd && !R.Harmless(c)
    ensures Spoilable(MountSlot(ImportSlot(slot).value)) && Spoilable(Replaced(u, ImportSlot(slot).value))
  {
    hide R.ToUi, R.Harmless, Spoilable, Shaped, Replaced, MountSlot, RtdChannelValid, DeviceShaped, PageKind,
         ImportSlot, RStrip, NUMBERS;
    KindOfBody(slot);
    NumbersKeep(slot.mlfb);
    RtdShown(u, slot);
    var k :| 0 <= k < |slot.body.rtd| && slot.body.rtd[k] == c;
    RtdSpoils(slot, k);
  }

  lemma HarmfulShown(u: UiSlot, slot: SlotConfig)
    requires Shaped(u) && Importable(slot) && !HarmlessSlot(slot)
    ensures Spoilable(MountSlot(ImportSlot(slot).value)) && Spoilable(Replaced(u, ImportSlot(slot).value))
  {
    hide Importable, R.Harmless, ML.Harmless, Spoilable, Shaped, Replaced, MountSlot, ImportSlot;
    if slot.body.MeterBody? {
      HarmfulMeter(u, slot);
    } else {
      var c :| c in slot.body.rtd && !R.Harmless(c);
      HarmfulRtd(u, slot, c);
    }
  }

  lemma SlipShown(u: UiSlot, slot: SlotConfig)
    requires Shaped(u) && Importable(slot) && !NoSlip(u, slot)
    ensures Spoilable(Replaced(u, ImportSlot(slot).value))
  {
    hide A.ToUiChannel, A.Cleared, A.Slips, Spoilable, AiChannelValid, RStrip, PageKind, NUMBERS, Replaced, YamlToUi;
    KindOfBody(slot);
    NumbersKeep(slot.mlfb);
    var j :| 0 <= j < |slot.body.ai| && A.Slips(u.ai.channels[j], slot.body.ai[j]);
    AiReplaced(u.ai, slot);
    assert slot.body.ai[j] in slot.body.ai;
    A.ReplacedConsistentIff(u.ai.channels[j], slot.body.ai[j], j);
    var p := A.ToUi(slot).(channels := A.ReplacedBy(u.ai.channels, slot.body.ai));
    CurrentSpoils(p, j);
    OneEdit(AiSlot(p), MakeCurrent(j));
  }

  // ---------- measurement types come through ----------

  predicate KindsShown(u: UiSlot, slot: SlotConfig) {
    && u.AiSlot? && slot.body.AiBody? && u.ai.mlfb == slot.mlfb && |u.ai.channels| == |slot.body.ai|
    && forall i :: 0 <= i < |slot.body.ai| ==> A.KindShown(u.ai.channels[i], slot.body.ai[i])
  }

  lemma KindExported(u: A.Channel, c: AiChannel, i: nat)
    requires A.KindShown(u, c) && AiChannelValid(c) && i <= 7
    ensures A.ToDeviceChannel(u, i).kind == c.kind
  {
    hide A.ToDeviceChannel;
    A.DeviceChannelIs(u, i);
  }

  lemma AiSlotIs(slot: SlotConfig)
    requires Importable(slot) && slot.body.AiBody?
    ensures A.AiNumber(slot.mlfb) && |slot.body.ai| == A.ChannelNums(slot.mlfb)
    ensures AiChannels(slot.mlfb) == |slot.body.ai|
    ensures |slot.body.ai| % 2 == 0
    ensures ImportSlot(slot) == Ok(AiSlot(A.ToUi(slot)))
    ensures slot.body.powerAlarm.Flag? && OneOf(slot.body.integTime, {0, 1, 2, 3})
    ensures forall c :: c in slot.body.ai ==> AiChannelValid(c)
  {
    hide A.ToUi, AiChannelValid, RStrip, PageKind, NUMBERS;
    KindOfBody(slot);
    NumbersKeep(slot.mlfb);
    ShapesMeet(slot);
  }

  lemma KindsBack(p: A.Page, slot: SlotConfig)
    requires slot.body.AiBody? && KindsShown(AiSlot(p), slot) && A.AiNumber(slot.mlfb)
    requires |slot.body.ai| == A.ChannelNums(slot.mlfb)
    requires forall c :: c in slot.body.ai ==> AiChannelValid(c)
    ensures Shaped(AiSlot(p)) && A.ToDevice(p).mlfb == slot.mlfb
    ensures A.ToDevice(p).body.AiBody? && |A.ToDevice(p).body.ai| == |slot.body.ai|
    ensures forall i :: 0 <= i < |slot.body.ai| ==> A.ToDevice(p).body.ai[i].kind == slot.body.ai[i].kind
  {
    hide A.ToDeviceChannel, AiChannelValid, A.KindShown, UiToYaml;
    forall i | 0 <= i < |slot.body.ai|
      ensures A.ToDeviceChannel(p.channels[i], i).kind == slot.body.ai[i].kind
    {
      KindExported(p.channels[i], slot.body.ai[i], i);
    }
  }

  lemma PairsBack(u: UiSlot, slot: SlotConfig)
    requires Importable(slot) && KindsShown(u, slot) && Shaped(u) && PairsAgree(ExportSlot(u))
    ensures PairsAgree(slot)
  {
    hide Importable, AiChannelValid, A.KindShown, AiChannels, A.AiNumber, A.ChannelNums, Shaped, A.ToDevice,
         D.ToDevice, D.InputToDevice, R.ToDevice, M.ToDevice;
    AiSlotIs(slot);
    KindsBack(u.ai, slot);
  }

  lemma ImportShowsKinds(slot: SlotConfig)
    requires Importable(slot) && slot.body.AiBody?
    ensures KindsShown(ImportSlot(slot).value, slot)
  {
    hide Importable, AiChannelValid, A.Importable, A.KindShown, A.PageImportable, YamlToUi, A.ToUiChannel;
    AiSlotIs(slot);
    A.PageImported(slot);
  }

  lemma ShownKinds(u: UiSlot, w: UiSlot, slot: SlotConfig)
    requires KindsShown(w, slot)
    ensures KindsShown(Replaced(u, w), slot)
  {
  }

  lemma NoAiNoPairs(slot: SlotConfig)
    requires Importable(slot) && !slot.body.AiBody?
    ensures PairsAgree(slot)
  {
    hide RStrip, PageKind, NUMBERS, RtdChannelValid, MeterModuleValid, MeterChannelValid;
    KindOfBody(slot);
    NumbersKeep(slot.mlfb);
  }

  // ---------- the import event ----------

  /** Every output channel of an SM1223 is configured. */
  predicate OutputsConfigured(slot: SlotConfig) {
    Produce(slot.mlfb).Sm1223? && slot.body.InputsOutputs? ==>
      forall i: nat :: i < D.Channels(slot.mlfb) ==> i in slot.body.substitute
  }

  lemma ValidImports(slot: SlotConfig)
    requires SlotValid(slot)
    ensures DeviceShaped(slot) && (ImportSlot(slot).Ok? <==> OutputsConfigured(slot))
  {
    hide D.ToUi, D.InputToUi, R.ToUi, A.ToUi, M.ToUi, RStrip, NUMBERS, BodyValid;
    NumbersKeep(slot.mlfb);
    ShapesMeet(slot);
    if PageKind(slot.mlfb).Sm1223? { D.ImportAccepts(slot); }
  }

  /** Of the configurations the schemas accept, those without an unconfigured output are imported; the
      others leave the page as it was. */
  lemma ImportSucceedsIff(s: State, config: Config)
    requires Sized(s) && SchemaValid(config)
    ensures Possible(s, ImportConfig(config))
    ensures Import(config, SLOTS).Ok? <==> forall i :: i in config ==> OutputsConfigured(config[i])
    ensures Import(config, SLOTS).Err? ==> StepPage(s, ImportConfig(config)) == s
  {
    hide ImportSlot, DeviceShaped, SlotValid, OutputsConfigured, Import;
    forall i | i in config
      ensures DeviceShaped(config[i]) && (ImportSlot(config[i]).Ok? <==> OutputsConfigured(config[i]))
    {
      ValidImports(config[i]);
    }
    if forall i :: i in config ==> OutputsConfigured(config[i]) {
      ImportAt(config, SLOTS, seq(SLOTS, i requires 0 <= i < SLOTS => ImportSlot(config[i + 1]).value));
    }
    if Import(config, SLOTS).Ok? {
      ImportedAt(config, SLOTS);
    }
  }

  /** What slot i + 1 of the configuration makes of slot i of the page. */
  function Arrived(u: UiSlot, slot: SlotConfig, shown: bool): UiSlot
    requires DeviceShaped(slot) && ImportSlot(slot).Ok?
  {
    if shown then Replaced(u, ImportSlot(slot).value) else ImportSlot(slot).value
  }

  lemma AfterImport(s: State, config: Config)
    requires Sized(s) && SchemaValid(config) && Possible(s, ImportConfig(config)) && Import(config, SLOTS).Ok?
    ensures forall i :: 1 <= i <= SLOTS ==> Importable(config[i])
    ensures var t := StepPage(s, ImportConfig(config));
      && Sized(t) && t.cur == s.cur
      && forall i ::
            0 <= i < SLOTS ==> Importable(config[i + 1]) && t.slots[i] == Arrived(s.slots[i], config[i + 1], i == s.cur)
  {
    hide ImportSlot, DeviceShaped, SlotValid, Import, Replaced;
    ImportedAt(config, SLOTS);
    var us := Import(config, SLOTS).value;
    forall i | 0 <= i < SLOTS
      ensures Importable(config[i + 1]) && ImportSlot(config[i + 1]) == Ok(us[i])
    {
      assert ImportSlot(config[i + 1]) == Ok(us[(i + 1) - 1]);
    }
    forall i | 1 <= i <= SLOTS
      ensures Importable(config[i])
    {
      assert Importable(config[(i - 1) + 1]);
    }
  }

  lemma FillsIff(config: Config, i: nat)
    requires i in config && Importable(config[i])
    ensures Fills(config, i) <==> Occupied(config, i)
  {
    hide Importable, PageKind;
    KindOfBody(config[i]);
  }

  lemma {:induction false} FilledDown(config: Config, i: nat, j: nat)
    requires forall k :: 1 <= k <= SLOTS ==> k in config
    requires forall k :: 1 < k <= SLOTS && Fills(config, k) ==> Fills(config, k - 1)
    requires 1 <= i <= j <= SLOTS && Fills(config, j)
    ensures Fills(config, i)
  {
    hide Fills;
    if i < j {
      FilledDown(config, i, j - 1);
    }
  }

  /** Semantic validity, in terms of what the page shows. */
  lemma SemanticIff(config: Config, cur: nat)
    requires SchemaValid(config) && cur < SLOTS && WellShapedConfig(config)
    requires forall i :: 1 <= i <= SLOTS ==> Importable(config[i])
    ensures SemanticallyValid(config) && (cur > 0 ==> Occupied(config, cur))
       <==> ReachesTab(config, cur) && forall i :: 1 <= i <= SLOTS ==> PairsAgree(config[i])
  {
    hide Importable, Fills, Occupied, SlotValid, PairConsistent, AiChannels, WellShaped;
    forall i | 1 <= i <= SLOTS
      ensures Fills(config, i) <==> Occupied(config, i)
      ensures PairsAt(config, i) <==> PairsAgree(config[i])
    {
      FillsIff(config, i);
      AiShape(config[i]);
    }
    if ReachesTab(config, cur) {
      forall i, j | 1 <= i < j <= SLOTS && i in config && j in config && Occupied(config, j)
        ensures Occupied(config, i)
      {
        FilledDown(config, i, j);
      }
    }
    if NoHoles(config) {
      forall i | 1 < i <= SLOTS && Fills(config, i)
        ensures Fills(config, i - 1)
      {
        assert Occupied(config, i);
      }
    }
  }

  /** What a configuration the schemas accept must be for the page to keep it acceptable: valid
      semantically, with a module in front of the selected tab, harmless in every slot, and without a
      broken-wire alarm that slips past the shown analog inputs. */
  ghost predicate ImportHarmless(s: State, config: Config)
    requires Sized(s) && SchemaValid(config)
  {
    ValidIsShaped(config);
    && SemanticallyValid(config) && (s.cur > 0 ==> Occupied(config, s.cur))
    && (forall i :: 1 <= i <= SLOTS ==> HarmlessSlot(config[i]))
    && NoSlip(s.slots[s.cur], config[s.cur + 1])
  }

  lemma HarmlessIsSane(s: State, config: Config)
    requires Sized(s) && AllShaped(s.slots) && SchemaValid(config) && ImportHarmless(s, config)
    requires Possible(s, ImportConfig(config)) && Import(config, SLOTS).Ok?
    ensures Sane(StepPage(s, ImportConfig(config)))
  {
    hide Importable, StepPage, Possible, Import, Settled, Parked, Arrived, SlotValid, SemanticallyValid, PairsAgree,
         HarmlessSlot, NoSlip, Shaped, Fills, Occupied;
    ValidIsShaped(config);
    AfterImport(s, config);
    ImportFills(s, config);
    SemanticIff(config, s.cur);
    var t := StepPage(s, ImportConfig(config));
    ReachIff(t, config);
    forall i | 0 <= i < SLOTS
      ensures Parked(t.slots[i]) && (i == s.cur ==> Settled(t.slots[i]))
    {
      assert PairsAgree(config[i + 1]) && HarmlessSlot(config[i + 1]);
      ArrivesHarmless(s.slots[i], config[i + 1], i == s.cur);
    }
  }

  lemma ArrivesHarmless(u: UiSlot, slot: SlotConfig, shown: bool)
    requires Importable(slot) && Shaped(u) && HarmlessSlot(slot) && PairsAgree(slot) && (shown ==> NoSlip(u, slot))
    ensures Parked(Arrived(u, slot, shown)) && (shown ==> Settled(Arrived(u, slot, shown)))
  {
    hide Settled, Parked, Shaped, HarmlessSlot, PairsAgree, NoSlip, Replaced, ImportSlot, SlotValid, DeviceShaped;
    var w := Arrived(u, slot, shown);
    if shown {
      ReplacedSettles(u, slot);
      assert w == Replaced(u, ImportSlot(slot).value);
      SettledParks(w);
    } else {
      HarmlessParked(slot);
      assert w == ImportSlot(slot).value;
    }
  }

  // ---------- what goes wrong otherwise ----------

  lemma AcceptedAt(slots: seq<UiSlot>, i: nat)
    requires i < |slots| && Accepted(slots)
    ensures Shaped(slots[i]) && SlotValid(ExportSlot(slots[i]))
    ensures i < SLOTS ==> PairsAgree(ExportSlot(slots[i]))
  {
    hide Shaped, ExportSlot, SlotValid, PairConsistent, AiChannels, Export, WellShaped, NoHoles;
    ExportedAt(slots);
    var config := Export(slots);
    assert i + 1 in config && config[i + 1] == ExportSlot(slots[(i + 1) - 1]) && SlotValid(config[i + 1]);
    if i < SLOTS {
      assert PairsAt(config, i + 1);
      AiShape(config[i + 1]);
      assert PairsAgree(config[i + 1]);
    }
  }

  lemma AcceptedIsHoleFree(slots: seq<UiSlot>)
    requires Accepted(slots) && |slots| == SLOTS
    ensures HoleFree(slots)
  {
    hide Shaped, ExportSlot, SlotValid, PairsAt, Export, WellShapedConfig;
    ExportedAt(slots);
    forall i | 0 < i < |slots| && !slots[i].NoneSlot?
      ensures !slots[i - 1].NoneSlot?
    {
      ExportedNumber(slots[i]);
      ExportedNumber(slots[i - 1]);
      var config := Export(slots);
      assert i in config && config[i] == ExportSlot(slots[i - 1]);
      assert i + 1 in config && config[i + 1] == ExportSlot(slots[(i + 1) - 1]);
      assert Occupied(config, i + 1);
    }
  }

  lemma ExportedNumber(u: UiSlot)
    requires Shaped(u)
    ensures ExportSlot(u).mlfb == NO_MODULE <==> u.NoneSlot?
  {
    hide UiToYaml, M.ToDevice;
    if u.MeterSlot? { M.HeadShape(u.meter); }
  }

  lemma SpoiledRun(t: State, j: nat)
    requires Sized(t) && HoleFree(t.slots) && j < SLOTS && !t.slots[j].NoneSlot?
    requires Spoilable(if j == t.cur then t.slots[j] else MountSlot(t.slots[j]))
    ensures exists es :: NoImport(es) && Run(t, es).Some? && !Accepted(Run(t, es).value.slots)
  {
    hide Run, StepPage, MountSlot, EditRun, Spoiled, Accepted, NoImport;
    var pre: seq<Event> := if j == t.cur then [] else [SelectTab(j)];
    var v := if j == t.cur then t else State(j, t.slots[j := MountSlot(t.slots[j])]);
    if j == t.cur {
      NoEvents(t);
    } else {
      TabShown(t, j);
    }
    var es :| EditRun(v.slots[j], es).Some? && Spoiled(EditRun(v.slots[j], es).value);
    EditsRun(t, pre, es);
    OnlyEdits(pre, es);
    NotAccepted(v.slots[j := EditRun(v.slots[j], es).value], j);
  }

  lemma TabShown(t: State, j: nat)
    requires Sized(t) && HoleFree(t.slots) && j < SLOTS && !t.slots[j].NoneSlot? && j != t.cur
    ensures Run(t, [SelectTab(j)]) == Some(State(j, t.slots[j := MountSlot(t.slots[j])]))
  {
    hide Run, MountSlot, EditEnabled, Import;
    OneStep(t, SelectTab(j));
  }

  lemma OnlyEdits(pre: seq<Event>, es: seq<SlotEdit>)
    requires forall e :: e in pre ==> e.SelectTab?
    ensures NoImport(pre + Edits(es))
  {
  }

  lemma NotAccepted(slots: seq<UiSlot>, j: nat)
    requires j < |slots| && Spoiled(slots[j])
    ensures !Accepted(slots)
  {
    hide Accepted, Shaped, SlotValid, ExportSlot;
    if Accepted(slots) {
      AcceptedAt(slots, j);
    }
  }

  lemma ArrivesHarmful(u: UiSlot, slot: SlotConfig, shown: bool)
    requires Importable(slot) && Shaped(u) && (!HarmlessSlot(slot) || (shown && !NoSlip(u, slot)))
    ensures var w := Arrived(u, slot, shown); !w.NoneSlot? && Spoilable(if shown then w else MountSlot(w))
  {
    hide Spoilable, Shaped, HarmlessSlot, NoSlip, Replaced, MountSlot, ImportSlot, SlotValid, DeviceShaped;
    var w := ImportSlot(slot).value;
    if !HarmlessSlot(slot) {
      HarmfulShown(u, slot);
    } else {
      SlipShown(u, slot);
    }
    ReplacedKeepsModule(u, w);
    MountKeepsModule(w);
    if (if shown then Replaced(u, w) else MountSlot(w)).NoneSlot? {
      EmptyUnspoilt();
    }
  }

  lemma EmptyUnspoilt()
    ensures !Spoilable(NoneSlot)
  {
    forall es | EditRun(NoneSlot, es).Some?
      ensures !Spoiled(EditRun(NoneSlot, es).value)
    {
      EmptyRun(es);
      PlainValid();
    }
  }

  lemma {:induction false} EmptyRun(es: seq<SlotEdit>)
    requires EditRun(NoneSlot, es).Some?
    ensures EditRun(NoneSlot, es).value == NoneSlot
  {
    if es != [] {
      EmptyRun(es[..|es| - 1]);
    }
  }

  lemma DisagreeingPairs(s: State, config: Config, i: nat)
    requires Sized(s) && AllShaped(s.slots) && SchemaValid(config)
    requires Possible(s, ImportConfig(config)) && Import(config, SLOTS).Ok?
    requires i < SLOTS && !PairsAgree(config[i + 1])
    ensures !Accepted(StepPage(s, ImportConfig(config)).slots)
  {
    hide Importable, StepPage, Possible, Import, Accepted, PairsAgree, Shaped, SlotValid, Replaced, ExportSlot,
         ImportSlot;
    AfterImport(s, config);
    var t := StepPage(s, ImportConfig(config));
    if Accepted(t.slots) {
      AcceptedAt(t.slots, i);
      ArrivesPaired(s.slots[i], config[i + 1], i == s.cur);
    }
  }

  /** A slot whose pairs disagree still disagrees when it is exported again. */
  lemma ArrivesPaired(u: UiSlot, slot: SlotConfig, shown: bool)
    requires Importable(slot) && Shaped(Arrived(u, slot, shown)) && PairsAgree(ExportSlot(Arrived(u, slot, shown)))
    ensures PairsAgree(slot)
  {
    hide SlotValid, DeviceShaped, Shaped, ImportSlot, ExportSlot, Replaced, PairsAgree, KindsShown;
    if slot.body.AiBody? {
      ImportShowsKinds(slot);
      ShownKinds(u, ImportSlot(slot).value, slot);
      PairsBack(Arrived(u, slot, shown), slot);
    } else {
      NoAiNoPairs(slot);
    }
  }

  /** Of the imports that succeed with a configuration the schemas accept, exactly the harmless ones
      leave a page on which every run, short of a further import, ends with a configuration that both
      validations accept. */
  lemma ImportStaysAcceptedIff(s: State, config: Config)
    requires Sized(s) && AllShaped(s.slots) && SchemaValid(config)
    requires Possible(s, ImportConfig(config)) && Import(config, SLOTS).Ok?
    ensures var t := StepPage(s, ImportConfig(config));
      ImportHarmless(s, config) <==> forall es :: NoImport(es) && Run(t, es).Some? ==> Accepted(Run(t, es).value.slots)
  {
    hide StepPage, Possible, Import, ImportHarmless, Accepted, Sane, Run, NoImport, Shaped, SlotValid;
    var t := StepPage(s, ImportConfig(config));
    if ImportHarmless(s, config) {
      HarmlessIsSane(s, config);
      forall es | NoImport(es) && Run(t, es).Some?
        ensures Accepted(Run(t, es).value.slots)
      {
        RunSane(t, es);
        SaneIsAccepted(Run(t, es).value);
      }
    } else {
      HarmfulImport(s, config);
    }
  }

  lemma HarmfulImport(s: State, config: Config)
    requires Sized(s) && AllShaped(s.slots) && SchemaValid(config) && !ImportHarmless(s, config)
    requires Possible(s, ImportConfig(config)) && Import(config, SLOTS).Ok?
    ensures var t := StepPage(s, ImportConfig(config));
      exists es :: NoImport(es) && Run(t, es).Some? && !Accepted(Run(t, es).value.slots)
  {
    hide Importable, StepPage, Possible, Import, Accepted, Run, NoImport, Arrived, SlotValid, SemanticallyValid,
         PairsAgree, HarmlessSlot, NoSlip, Shaped, Fills, Occupied, Spoilable, MountSlot, ReachesTab;
    ValidIsShaped(config);
    AfterImport(s, config);
    SemanticIff(config, s.cur);
    ImportMakesHolesIff(s, config);
    var t := StepPage(s, ImportConfig(config));
    if !ReachesTab(config, s.cur) {
      var es :| NoImport(es) && Run(t, es).Some? && !HoleFree(Run(t, es).value.slots);
      RunSized(t, es);
      if Accepted(Run(t, es).value.slots) { AcceptedIsHoleFree(Run(t, es).value.slots); }
    } else if i :| 1 <= i <= SLOTS && !PairsAgree(config[i]) {
      DisagreeingPairs(s, config, i - 1);
      NoEvents(t);
    } else {
      NoEvents(t);
      assert HoleFree(t.slots);
      var k: nat := s.cur + 1;
      if NoSlip(s.slots[s.cur], config[s.cur + 1]) {
        k :| 1 <= k <= SLOTS && !HarmlessSlot(config[k]);
      }
      HarmfulSlot(s, config, t, k);
    }
  }

  lemma HarmfulSlot(s: State, config: Config, t: State, k: nat)
    requires Sized(s) && Sized(t) && t.cur == s.cur && 1 <= k <= SLOTS && k in config && Importable(config[k])
    requires Shaped(s.slots[k - 1]) && HoleFree(t.slots)
    requires t.slots[k - 1] == Arrived(s.slots[k - 1], config[k], k - 1 == s.cur)
    requires !HarmlessSlot(config[k]) || (k - 1 == s.cur && !NoSlip(s.slots[k - 1], config[k]))
    ensures exists es :: NoImport(es) && Run(t, es).Some? && !Accepted(Run(t, es).value.slots)
  {
    hide Importable, Accepted, Run, NoImport, Arrived, HarmlessSlot, NoSlip, Shaped, Spoilable, MountSlot;
    ArrivesHarmful(s.slots[k - 1], config[k], k - 1 == s.cur);
    SpoiledRun(t, k - 1);
  }

  lemma {:induction false} RunSized(t: State, es: seq<Event>)
    requires Sized(t) && Run(t, es).Some?
    ensures Sized(Run(t, es).value)
  {
    hide StepPage, Possible;
    if es != [] {
      RunSized(t, es[..|es| - 1]);
    }
  }

  // ---------- runs with imports ----------

  ghost predicate Careful(s: State, e: Event)
    requires Possible(s, e)
  {
    e.ImportConfig? ==> SchemaValid(e.config) && (Import(e.config, SLOTS).Ok? ==> ImportHarmless(s, e.config))
  }

  /** Every import of the run brings a configuration the schemas accept, harmless where it is made. */
  ghost predicate CarefulRun(s: State, es: seq<Event>) {
    es != [] ==>
      && CarefulRun(s, es[..|es| - 1]) && Run(s, es[..|es| - 1]).Some?
      && Possible(Run(s, es[..|es| - 1]).value, es[|es| - 1])
      && Careful(Run(s, es[..|es| - 1]).value, es[|es| - 1])
  }

  lemma CarefulSane(s: State, e: Event)
    requires Sane(s) && Possible(s, e) && Careful(s, e)
    ensures Sane(StepPage(s, e))
  {
    hide Sane, StepPage, Possible, Import, ImportHarmless;
    if e.ImportConfig? {
      SaneIsAccepted(s);
      SaneSized(s);
      ImportSucceedsIff(s, e.config);
      if Import(e.config, SLOTS).Ok? { HarmlessIsSane(s, e.config); }
    } else {
      StepSane(s, e);
    }
  }

  lemma SaneSized(s: State)
    requires Sane(s)
    ensures Sized(s)
  {
    hide Settled, Parked;
  }

  lemma {:induction false} CarefulRunSane(s: State, es: seq<Event>)
    requires Sane(s) && CarefulRun(s, es)
    ensures Run(s, es).Some? && Sane(Run(s, es).value)
  {
    hide Sane, StepPage, Possible, Careful;
    if es != [] {
      CarefulRunSane(s, es[..|es| - 1]);
      CarefulSane(Run(s, es[..|es| - 1]).value, es[|es| - 1]);
    }
  }

  /** Imports may come at any point of a run, and as often as wanted: as long as each is harmless where
      it is made, the run ends with a configuration that both validations accept. */
  lemma CarefulRunsAreAccepted(es: seq<Event>)
    requires CarefulRun(INITIAL, es)
    ensures Run(INITIAL, es).Some? && Accepted(Run(INITIAL, es).value.slots)
  {
    hide Sane, Run, CarefulRun, Accepted, INITIAL;
    InitialSane();
    CarefulRunSane(INITIAL, es);
    SaneIsAccepted(Run(INITIAL, es).value);
  }

  // ---------- an alarm that slips ----------

  const VOLTAGE_ALARM: AiChannel := AiChannel(Num(1), Num(9), Num(1), Flag(true), Flag(true), Flag(true))
  const ALARM_SLOT: SlotConfig := SlotConfig("", SM1231_4AI, AiBody(Num(2), Flag(true), seq(4, _ => VOLTAGE_ALARM)))
  const ALARM_CONFIG: Config := EMPTY_CONFIG[1 := ALARM_SLOT]

  /** Four voltage channels with broken-wire alarms replace four without, and a pair becomes current. */
  const ALARM_RUN: seq<Event> := [Choose(SM1231_4AI), ImportConfig(ALARM_CONFIG), Edit(MakeCurrent(0))]

  lemma AlarmSlot()
    ensures SlotValid(ALARM_SLOT) && PairsAgree(ALARM_SLOT) && OutputsConfigured(ALARM_SLOT)
    ensures A.AiNumber(ALARM_SLOT.mlfb) && A.ChannelNums(ALARM_SLOT.mlfb) == 4 && Importable(ALARM_SLOT)
    ensures AiChannelValid(VOLTAGE_ALARM)
  {
    hide DeviceShaped, ImportSlot, PageKind;
    assert RStrip(SM1231_4AI) == SM1231_4AI;
    ValidImports(ALARM_SLOT);
  }

  lemma AlarmConfig()
    ensures SchemaValid(ALARM_CONFIG) && WellShapedConfig(ALARM_CONFIG) && SemanticallyValid(ALARM_CONFIG)
    ensures forall i :: i in ALARM_CONFIG ==> OutputsConfigured(ALARM_CONFIG[i])
  {
    hide ALARM_SLOT, SlotValid, WellShaped, PairConsistent, AiChannels, OutputsConfigured, SemanticallyValid;
    AlarmSlot();
    EmptyConfig();
    EmptySlot();
    ValidIsShaped(ALARM_CONFIG);
    assert forall i | 2 <= i <= SLOTS :: ALARM_CONFIG[i] == EMPTY_SLOT;
    AlarmSemantics();
  }

  lemma EmptySlot()
    ensures OutputsConfigured(EMPTY_SLOT) && PairsAgree(EMPTY_SLOT)
  {
  }

  lemma AlarmSemantics()
    requires WellShapedConfig(ALARM_CONFIG)
    ensures SemanticallyValid(ALARM_CONFIG)
  {
    hide ALARM_SLOT, WellShaped, PairConsistent, AiChannels, Produce;
    AlarmSlot();
    EmptySlot();
    forall i | 1 <= i <= SLOTS
      ensures PairsAt(ALARM_CONFIG, i)
    {
      AiShape(ALARM_CONFIG[i]);
    }
  }

  /** The default page of an SM1231-4AI. */
  const AI_DEFAULT: A.Page := A.PageDefault(SM1231_4AI)

  lemma AlarmShown()
    ensures Possible(INITIAL, Choose(SM1231_4AI))
    ensures StepPage(INITIAL, Choose(SM1231_4AI)) == INITIAL.(slots := INITIAL.slots[0 := AiSlot(AI_DEFAULT)])
    ensures Shaped(AiSlot(AI_DEFAULT)) && A.Slips(AI_DEFAULT.channels[0], VOLTAGE_ALARM)
  {
    hide Import, EditEnabled;
    var u := AiSlot(AI_DEFAULT);
    assert |"None"| == 4 && |SM1231_4AI| == 18;
    assert DefaultSlot(SM1231_4AI) == u;
    assert MountSlot(u).ai.channels == u.ai.channels;
  }

  lemma ThreeEvents(s: State, a: Event, b: Event, c: Event)
    requires Possible(s, a) && Possible(StepPage(s, a), b) && Possible(StepPage(StepPage(s, a), b), c)
    ensures Run(s, [a, b, c]) == Some(StepPage(StepPage(StepPage(s, a), b), c))
  {
    hide Possible, StepPage;
    var es := [a, b, c];
    assert es[..2] == [a, b] && [a, b][..1] == [a] && [a][..0] == [];
    assert Run(s, []) == Some(s);
    assert Run(s, [a]) == Some(StepPage(s, a));
    assert Run(s, [a, b]) == Some(StepPage(StepPage(s, a), b));
  }

  lemma AlarmArrives(p: A.Page)
    requires Shaped(AiSlot(p)) && p.mlfb == SM1231_4AI && A.Slips(p.channels[0], VOLTAGE_ALARM)
    requires DeviceShaped(ALARM_SLOT) && ImportSlot(ALARM_SLOT).Ok?
    ensures var w := Replaced(AiSlot(p), ImportSlot(ALARM_SLOT).value);
      && w.AiSlot? && Shaped(w) && |w.ai.channels| == 4 && w.ai.channels[0].kind == A.VOLTAGE
      && w.ai.channels[0].openWire == Flag(true)
  {
    hide A.Slips, A.Cleared, A.ToUiChannel, A.Consistent, VOLTAGE_ALARM, YamlToUi, Replaced, SlotValid;
    AlarmSlot();
    AiReplaced(p, ALARM_SLOT);
    A.ReplacedConsistentIff(p.channels[0], VOLTAGE_ALARM, 0);
  }

  /** From its start the page reaches a configuration that the schemas refuse, by way of one that both
      validations accept. */
  lemma AlarmSlips()
    ensures SchemaValid(ALARM_CONFIG) && WellShapedConfig(ALARM_CONFIG) && SemanticallyValid(ALARM_CONFIG)
    ensures Run(INITIAL, ALARM_RUN).Some? && !Accepted(Run(INITIAL, ALARM_RUN).value.slots)
  {
    hide StepPage, Import, ImportSlot, Accepted, SlotValid, AI_DEFAULT, A.Slips, ALARM_SLOT, SemanticallyValid,
         Shaped, EditEnabled, EditSlot, MakeCurrent, Replaced, DeviceShaped, Run, VOLTAGE_ALARM, WellShaped,
         OutputsConfigured;
    AlarmConfig();
    AlarmShown();
    var one := INITIAL.(slots := INITIAL.slots[0 := AiSlot(AI_DEFAULT)]);
    ImportSucceedsIff(one, ALARM_CONFIG);
    AfterImport(one, ALARM_CONFIG);
    DefaultNumber();
    assert Importable(ALARM_CONFIG[0 + 1]) && ALARM_CONFIG[1] == ALARM_SLOT;
    AlarmArrives(AI_DEFAULT);
    var two := StepPage(one, ImportConfig(ALARM_CONFIG));
    assert two.slots[0] == Replaced(one.slots[0], ImportSlot(ALARM_SLOT).value);
    CurrentSpoils(two.slots[0].ai, 0);
    EditStep(two, MakeCurrent(0));
    NotAccepted(StepPage(two, Edit(MakeCurrent(0))).slots, 0);
    ThreeEvents(INITIAL, Choose(SM1231_4AI), ImportConfig(ALARM_CONFIG), Edit(MakeCurrent(0)));
  }

  lemma DefaultNumber()
    ensures AI_DEFAULT.mlfb == SM1231_4AI
  {
  }

  lemma EditStep(s: State, e: SlotEdit)
    requires Sized(s) && s.cur == 0 && EditEnabled(s.slots[0], e)
    ensures Possible(s, Edit(e)) && StepPage(s, Edit(e)).slots[0] == EditSlot(s.slots[0], e)
  {
    hide EditEnabled, EditSlot, Import, MountSlot, DefaultSlot;
  }
}
