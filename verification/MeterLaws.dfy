/** What editing keeps on the SM1238 page: dependent menus, the mirrored entries of a balanced
    connection, and the validity of what is exported. */
module MeterLaws {
  import opened Common
  import opened Modules
  import opened TextTables
  import opened Schema
  import opened MeterPage

  const EDITABLE_VERSIONS: set<int> := {32, 112}

  // ---------- the menu of data variants ----------

  lemma VariantsTotal(version: UiText, conType: UiText)
    requires TextIn(version, ModVer, EDITABLE_VERSIONS) && TextIn(conType, ConType, CON_TYPES)
    ensures VariantsFor(version, conType).Some?
    ensures var choice := VariantsFor(version, conType).value;
      choice.selection.Includes(choice.standard) && choice.selection.group == DataVariant
      && choice.selection.codes <= VARIANTS
  {
  }

  lemma OldVersionMenus(conType: UiText)
    requires TextIn(conType, ConType, CON_TYPES)
    ensures VariantsFor(Label(ModVer, 32), conType).Some?
    ensures VariantsFor(Label(ModVer, 32), conType).value.selection.codes == Variants(32, conType.code)
  {
    if THREE_PHASE.Includes(conType) {
      assert VARIANTS - {0xE3} == Variants(32, conType.code);
    } else if conType == ONE_PHASE {
      assert VARIANTS - {0xE3, 0xF7, 0xF6, 0xF5, 0x9D, 0x9C, 0x9B, 0x9A} == Variants(32, 0x0B);
    } else {
      assert VARIANTS - {0xE3, 0xF6, 0x9B, 0x9A} == Variants(32, 0x10);
    }
  }

  lemma NewVersionMenus(conType: UiText)
    requires TextIn(conType, ConType, CON_TYPES)
    ensures VariantsFor(Label(ModVer, 112), conType).Some?
    ensures VariantsFor(Label(ModVer, 112), conType).value.selection.codes == Variants(112, conType.code)
  {
    if THREE_PHASE.Includes(conType) {
      assert VARIANTS - {} == Variants(112, conType.code);
    } else if conType == ONE_PHASE {
      assert VARIANTS - {0xF7, 0xF6, 0xF5, 0x9D, 0x9C, 0x9B, 0x9A} == Variants(112, 0x0B);
    } else {
      assert VARIANTS - {0xF6, 0x9B, 0x9A} == Variants(112, 0x10);
    }
  }

  /** The menu the handler computes by dropping labels is the list the schema spells out. */
  lemma VariantsMatchSchema(version: UiText, conType: UiText)
    requires TextIn(version, ModVer, EDITABLE_VERSIONS) && TextIn(conType, ConType, CON_TYPES)
    ensures VariantsFor(version, conType).Some?
    ensures VariantsFor(version, conType).value.selection.codes == Variants(version.code, conType.code)
  {
    hide VariantsFor, Variants, VARIANTS;
    if version.code == 32 {
      OldVersionMenus(conType);
    } else {
      NewVersionMenus(conType);
    }
  }

  // ---------- sound pages ----------

  predicate ModuleSound(p: Page) {
    && p.mlfb == SM1238 && |p.channels| == 3
    && TextIn(p.version, ModVer, EDITABLE_VERSIONS) && TextIn(p.conType, ConType, CON_TYPES)
    && TextIn(p.range, Range, RANGES) && TextIn(p.freq, LineFreq, FREQS) && TextIn(p.period, PeriodMeters, PERIODS)
    && p.gate.Flag? && p.minMax.Flag? && p.diagLine.Flag? && Within(p.lineTol, 1, 50)
  }

  /** The data variant is one the schema allows. The menu offers no others, except that it may be
      out of date while the module is deactivated and nothing can be chosen from it. */
  predicate VariantSound(p: Page) {
    match VariantsFor(p.version, p.conType)
    case None => false
    case Some(choice) =>
      choice.selection.Includes(p.variant) && (p.conType == OFF || p.variantSelection == choice.selection)
  }

  predicate ChannelSound(conType: UiText, u: Channel) {
    && u.overCur.Flag? && u.overCal.Flag? && u.llVol.Flag? && u.underVol.Flag? && u.overVol.Flag?
    && u.enGate.Flag? && u.actHour.Flag? && u.reCurDir.Flag?
    && Within(u.tolVal, 10, 100) && Within(u.tolTime, 0, 60000) && Within(u.ctPrimary, 1, 99999)
    && Within(u.llCur, 2, 250) && Within(u.vtSecond, 1, 99999) && Within(u.vtPrim, 1, 999999)
    && BOTH_CTS.Includes(u.ctSecond) && u.ctSelection in {BOTH_CTS, Selection(CtSndCur, {0})}
    && (conType == SINGLES ==> u.ctSecond == CT_0)
  }

  ghost predicate Sound(p: Page) {
    ModuleSound(p) && VariantSound(p) && forall i :: 0 <= i < 3 ==> ChannelSound(p.conType, p.channels[i])
  }

  lemma WithVariantsSound(p: Page)
    requires TextIn(p.version, ModVer, EDITABLE_VERSIONS) && TextIn(p.conType, ConType, CON_TYPES)
    ensures VariantSound(WithVariants(p))
    ensures WithVariants(p).variantSelection == VariantsFor(p.version, p.conType).value.selection
    ensures WithVariants(p)
            == p.(variantSelection := WithVariants(p).variantSelection, variant := WithVariants(p).variant)
  {
    hide VariantsFor, TextIn;
    VariantsTotal(p.version, p.conType);
  }

  lemma WithCtSound(was: UiText, conType: UiText, u: Channel)
    requires ChannelSound(was, u)
    ensures ChannelSound(conType, WithCt(conType, u))
  {
  }

  lemma MirroredSound(conType: UiText, u: Channel, from: Channel)
    requires ChannelSound(conType, u) && ChannelSound(conType, from)
    ensures ChannelSound(conType, Mirrored(u, from))
  {
  }

  lemma SliderSound(conType: UiText, u: Channel, s: Slider, v: int)
    requires ChannelSound(conType, u)
    ensures ChannelSound(conType, SetSlider(u, s, Clamp(v, Bounds(s).0, Bounds(s).1)))
  {
  }

  lemma BoxSound(conType: UiText, u: Channel, b: Box, on: bool)
    requires ChannelSound(conType, u)
    ensures ChannelSound(conType, SetBox(u, b, on))
  {
  }

  lemma CtSound(conType: UiText, u: Channel, from: Channel, t: UiText)
    requires ChannelSound(conType, u) && ChannelSound(conType, from) && from.ctSelection.Includes(t)
    requires conType != SINGLES
    ensures ChannelSound(conType, u.(ctSecond := t))
  {
  }

  lemma ClearedChannelSound(conType: UiText, u: Channel, off: bool, dirOff: bool)
    requires ChannelSound(conType, u)
    ensures ChannelSound(conType, ClearedChannel(u, off, dirOff))
  {
  }

  lemma ConTypeSound(p: Page, t: UiText)
    requires Sound(p) && TextIn(t, ConType, CON_TYPES)
    ensures Sound(OnConType(p.(conType := t)))
  {
    hide VariantsFor, WithVariants, VariantSound, ChannelSound, WithCt, Mirrored, TextIn;
    var q := p.(conType := t);
    WithVariantsSound(q);
    SameVariants(WithVariants(q), OnConType(q));
    forall i | 0 <= i < 3
      ensures ChannelSound(t, OnConType(q).channels[i])
    {
      WithCtSound(p.conType, t, p.channels[i]);
      WithCtSound(p.conType, t, p.channels[0]);
      MirroredSound(t, WithCt(t, p.channels[i]), WithCt(t, p.channels[0]));
    }
  }

  lemma SameVariants(p: Page, q: Page)
    requires VariantSound(p)
    requires q.version == p.version && q.conType == p.conType
    requires q.variant == p.variant && q.variantSelection == p.variantSelection
    ensures VariantSound(q)
  {
  }

  lemma ChannelsSound(p: Page, e: Edit)
    requires Sound(p) && Enabled(p, e) && (e.SelectCtSecond? || e.Slide? || e.Check?)
    ensures Sound(Handled(p, e))
  {
    hide VariantsFor, VariantSound, ChannelSound, SetSlider, SetBox, Bounds, Clamp, TextIn, Dead, MirroredSlider;
    var q := Handled(p, e);
    SameVariants(p, q);
    forall j | 0 <= j < 3
      ensures ChannelSound(p.conType, q.channels[j])
    {
      match e
      case SelectCtSecond(i, t) => CtSound(p.conType, p.channels[j], p.channels[i], t);
      case Slide(_, s, v) => SliderSound(p.conType, p.channels[j], s, v);
      case Check(_, b, on) => BoxSound(p.conType, p.channels[j], b, on);
    }
  }

  lemma HandledSound(p: Page, e: Edit)
    requires Sound(p) && Enabled(p, e)
    ensures Sound(Handled(p, e))
  {
    hide VariantsFor, ChannelSound, WithVariants, OnConType, Dead, MirroredSlider;
    match e
    case SelectConType(t) => ConTypeSound(p, t);
    case SelectVersion(t) => WithVariantsSound(p.(version := t));
    case SelectCtSecond(_, _) => ChannelsSound(p, e);
    case Slide(_, _, _) => ChannelsSound(p, e);
    case Check(_, _, _) => ChannelsSound(p, e);
    case _ =>
  }

  lemma ClearedSound(was: Option<UiText>, p: Page)
    requires Sound(p)
    ensures Sound(Cleared(was, p))
  {
    hide VariantsFor, VariantSound, ChannelSound, ClearedChannel, Dead, DirDisabled, TextIn;
    var q := Cleared(was, p);
    SameVariants(p, q);
    forall i | 0 <= i < 3
      ensures ChannelSound(q.conType, q.channels[i])
    {
      ClearedChannelSound(p.conType, p.channels[i],
                          Dead(p.conType, i) && (was.None? || !Dead(was.value, i)),
                          DirDisabled(p.conType, i) && (was.None? || !DirDisabled(was.value, i)));
    }
  }

  lemma StepSound(p: Page, e: Edit)
    requires Sound(p) && Enabled(p, e)
    ensures Sound(Step(p, e))
  {
    hide Sound, Handled, Cleared, Enabled;
    ShapeOfSound(p);
    HandledSound(p, e);
    ClearedSound(Some(p.conType), Handled(p, e));
  }

  lemma ShapeOfSound(p: Page)
    requires Sound(p)
    ensures |p.channels| == 3
  {
  }

  /** A sound page is exported as the schema wants it; no field is the error text. */
  lemma SoundIsValid(p: Page)
    requires Sound(p)
    ensures SlotValid(ToDevice(p)) && Produce(p.mlfb) == Meter
  {
    hide ToDevice, VariantsFor, Variants, VARIANTS, VERSIONS, ChannelSound;
    HeadShape(p);
    DeviceIs(p);
    VariantsTotal(p.version, p.conType);
    VariantsMatchSchema(p.version, p.conType);
    assert RStrip(SM1238) == SM1238;
    EditableListed(p.version);
    var b := ToDevice(p).body;
    forall c | c in b.phases
      ensures MeterChannelValid(b.meter.conType, c)
    {
      var i :| 0 <= i < 3 && b.phases[i] == c;
      ChannelIsValid(p.conType, p.channels[i]);
    }
  }

  lemma EditableListed(version: UiText)
    requires TextIn(version, ModVer, EDITABLE_VERSIONS)
    ensures TextIn(version, ModVer, VERSIONS)
  {
  }

  lemma ChannelIsValid(conType: UiText, u: Channel)
    requires ChannelSound(conType, u) && TextIn(conType, ConType, CON_TYPES)
    ensures MeterChannelValid(Read(conType, ConType, CON_TYPES), PhaseOf(u))
  {
  }

  // ---------- consistent pages ----------

  predicate SameMirrored(u: Channel, from: Channel) {
    u.ctPrimary == from.ctPrimary && u.ctSecond == from.ctSecond && u.vtPrim == from.vtPrim
    && u.vtSecond == from.vtSecond && u.llCur == from.llCur
  }

  predicate BoxesClear(u: Channel) {
    u.overCur == Flag(false) && u.overVol == Flag(false) && u.underVol == Flag(false) && u.llVol == Flag(false)
    && u.overCal == Flag(false) && u.actHour == Flag(false) && u.enGate == Flag(false)
  }

  function CtSelectionOf(conType: UiText): Selection {
    if conType == SINGLES then Selection(CtSndCur, {0}) else BOTH_CTS
  }

  predicate MenuCurrent(p: Page) {
    VariantsFor(p.version, p.conType).Some? && p.variantSelection == VariantsFor(p.version, p.conType).value.selection
  }

  /** Sound, and every menu is the one the other entries call for; a balanced connection has equal
      selections and sliders on all channels; the boxes of a dead channel are clear. */
  ghost predicate Consistent(p: Page) {
    && Sound(p) && MenuCurrent(p)
    && (forall i :: 0 <= i < 3 ==> ChannelConsistent(p.conType, i, p.channels[i]))
    && (p.conType == BALANCED
        ==> SameMirrored(p.channels[1], p.channels[0]) && SameMirrored(p.channels[2], p.channels[0]))
  }

  predicate ChannelConsistent(conType: UiText, i: nat, u: Channel) {
    && u.ctSelection == CtSelectionOf(conType) && Within(u.vtSecond, 1, 500)
    && (Dead(conType, i) ==> BoxesClear(u))
  }

  lemma DefaultMenu()
    ensures VariantSound(PAGE_DEFAULT) && MenuCurrent(PAGE_DEFAULT)
  {
    assert VARIANTS - {} == VARIANTS;
  }

  lemma DefaultEntries()
    ensures ModuleSound(PAGE_DEFAULT) && PAGE_DEFAULT.conType != BALANCED
    ensures forall i :: 0 <= i < 3 ==> PAGE_DEFAULT.channels[i] == CHANNEL_DEFAULT
    ensures forall i :: 0 <= i < 3 ==> ChannelConsistent(PAGE_DEFAULT.conType, i, CHANNEL_DEFAULT)
  {
    hide VARIANTS;
  }

  lemma DefaultChannel()
    ensures ChannelSound(PAGE_DEFAULT.conType, CHANNEL_DEFAULT)
  {
    hide VARIANTS;
    assert PAGE_DEFAULT.conType != SINGLES;
    assert BOTH_CTS.Includes(CT_0);
  }

  lemma DefaultConsistent()
    ensures Consistent(PAGE_DEFAULT)
  {
    hide PAGE_DEFAULT, CHANNEL_DEFAULT, ModuleSound, VariantSound, MenuCurrent, ChannelSound, ChannelConsistent;
    DefaultMenu();
    DefaultEntries();
    DefaultChannel();
    assert |PAGE_DEFAULT.channels| == 3 by { DefaultShape(); }
  }

  lemma DefaultShape()
    ensures |PAGE_DEFAULT.channels| == 3
  {
  }

  lemma ClearedConsistent(was: UiText, conType: UiText, i: nat, u: Channel)
    requires u.ctSelection == CtSelectionOf(conType) && Within(u.vtSecond, 1, 500)
    requires Dead(was, i) && Dead(conType, i) ==> BoxesClear(u)
    ensures ChannelConsistent(conType, i, ClearedChannel(u, Dead(conType, i) && !Dead(was, i),
                                                         DirDisabled(conType, i) && !DirDisabled(was, i)))
  {
  }

  lemma ClearedKeepsMirrored(u: Channel, off: bool, dirOff: bool)
    ensures SameMirrored(ClearedChannel(u, off, dirOff), u)
  {
  }

  lemma ConTypeConsistent(p: Page, t: UiText)
    requires Consistent(p) && TextIn(t, ConType, CON_TYPES)
    ensures MenuCurrent(Step(p, SelectConType(t)))
    ensures forall i :: 0 <= i < 3 ==> ChannelConsistent(t, i, Step(p, SelectConType(t)).channels[i])
    ensures t == BALANCED ==> SameMirrored(Step(p, SelectConType(t)).channels[1], Step(p, SelectConType(t)).channels[0])
    ensures t == BALANCED ==> SameMirrored(Step(p, SelectConType(t)).channels[2], Step(p, SelectConType(t)).channels[0])
  {
    hide VariantsFor, WithVariants, Dead, DirDisabled, ClearedChannel, Sound, TextIn;
    ShapeOfSound(p);
    VersionOfSound(p);
    var q := OnConType(p.(conType := t));
    WithVariantsSound(p.(conType := t));
    forall i | 0 <= i < 3
      ensures ChannelConsistent(t, i, Step(p, SelectConType(t)).channels[i])
      ensures SameMirrored(Step(p, SelectConType(t)).channels[i], q.channels[i])
    {
      ClearedConsistent(p.conType, t, i, q.channels[i]);
      ClearedKeepsMirrored(q.channels[i], Dead(t, i) && !Dead(p.conType, i),
                           DirDisabled(t, i) && !DirDisabled(p.conType, i));
    }
  }

  lemma VersionOfSound(p: Page)
    requires Sound(p)
    ensures TextIn(p.version, ModVer, EDITABLE_VERSIONS)
  {
  }

  lemma SettledNothing(p: Page)
    requires |p.channels| == 3
    ensures Cleared(Some(p.conType), p) == p
  {
    assert Cleared(Some(p.conType), p).channels == p.channels;
  }

  lemma SliderConsistent(conType: UiText, i: nat, u: Channel, s: Slider, v: int)
    requires ChannelConsistent(conType, i, u)
    ensures ChannelConsistent(conType, i, SetSlider(u, s, Clamp(v, Bounds(s).0, Bounds(s).1)))
  {
  }

  lemma SlidersMirror(u: Channel, w: Channel, s: Slider, v: int)
    requires SameMirrored(u, w)
    ensures SameMirrored(SetSlider(u, s, v), SetSlider(w, s, v))
    ensures !MirroredSlider(s) ==> SameMirrored(SetSlider(u, s, v), w) && SameMirrored(u, SetSlider(w, s, v))
  {
  }

  lemma BoxConsistent(conType: UiText, i: nat, u: Channel, b: Box, on: bool)
    requires ChannelConsistent(conType, i, u) && (!Dead(conType, i) || b == ReCurDir)
    ensures ChannelConsistent(conType, i, SetBox(u, b, on)) && SameMirrored(SetBox(u, b, on), u)
  {
  }

  lemma ChannelsConsistent(p: Page, e: Edit)
    requires Consistent(p) && Enabled(p, e) && (e.SelectCtSecond? || e.Slide? || e.Check?)
    ensures Consistent(Handled(p, e))
  {
    hide VariantsFor, Dead, SetSlider, SetBox, Bounds, Clamp, Sound, MirroredSlider, SameMirrored, ChannelConsistent;
    ShapeOfSound(p);
    ChannelsSound(p, e);
    var q := Handled(p, e);
    forall j | 0 <= j < 3
      ensures ChannelConsistent(p.conType, j, q.channels[j])
      ensures p.conType == BALANCED ==> SameMirrored(q.channels[j], q.channels[0])
    {
      match e
      case SelectCtSecond(i, t) =>
        CtConsistent(p.conType, j, p.channels[j], p.channels[0], t);
        SelfMirrored(p.channels[0]);
      case Slide(i, s, v) =>
        SelfMirrored(p.channels[0]);
        SliderConsistent(p.conType, j, p.channels[j], s, v);
        if p.conType == BALANCED {
          SlidersMirror(p.channels[j], p.channels[0], s, Clamp(v, Bounds(s).0, Bounds(s).1));
        }
      case Check(i, b, on) =>
        SelfMirrored(p.channels[0]);
        if q.channels[j] != p.channels[j] {
          BoxConsistent(p.conType, j, p.channels[j], b, on);
        }
        BoxMirror(p.channels[j], b, on);
        BoxMirror(p.channels[0], b, on);
        if p.conType == BALANCED {
          MirrorChain(q.channels[j], p.channels[j], p.channels[0], q.channels[0]);
        }
    }
  }

  lemma SelfMirrored(u: Channel)
    ensures SameMirrored(u, u)
  {
  }

  lemma CtConsistent(conType: UiText, j: nat, u: Channel, first: Channel, t: UiText)
    requires ChannelConsistent(conType, j, u)
    ensures ChannelConsistent(conType, j, u.(ctSecond := t))
    ensures SameMirrored(u, first) ==> SameMirrored(u.(ctSecond := t), first.(ctSecond := t))
  {
  }

  lemma BoxMirror(u: Channel, b: Box, on: bool)
    ensures SameMirrored(SetBox(u, b, on), u) && SameMirrored(u, SetBox(u, b, on)) && SameMirrored(u, u)
  {
  }

  lemma MirrorChain(u: Channel, v: Channel, w: Channel, x: Channel)
    requires SameMirrored(u, v) && SameMirrored(v, w) && SameMirrored(x, w)
    ensures SameMirrored(u, x)
  {
  }

  /** Every enabled edit keeps the page consistent. */
  lemma StepKeeps(p: Page, e: Edit)
    requires Consistent(p) && Enabled(p, e)
    ensures Consistent(Step(p, e))
  {
    hide VariantsFor, WithVariants, Sound, Dead, DirDisabled, Cleared, OnConType, SameMirrored, ChannelConsistent,
         MirroredSlider;
    StepSound(p, e);
    ShapeOfSound(p);
    ShapeOfSound(Step(p, e));
    VersionOfSound(p);
    match e
    case SelectConType(t) =>
      ConTypeKept(p, t);
      ConTypeConsistent(p, t);
    case SelectCtSecond(_, _) =>
      ChannelsConsistent(p, e);
      SettledNothing(Handled(p, e));
    case Slide(_, _, _) =>
      ChannelsConsistent(p, e);
      SettledNothing(Handled(p, e));
    case Check(_, _, _) =>
      ChannelsConsistent(p, e);
      SettledNothing(Handled(p, e));
    case SelectVersion(t) =>
      ConTypeOfSound(p);
      WithVariantsSound(p.(version := t));
      SettledNothing(Handled(p, e));
    case _ => SettledNothing(Handled(p, e));
  }

  /** Showing the page again keeps it consistent; it may clear copied current directions. */
  lemma MountKeeps(p: Page)
    requires Consistent(p)
    ensures |p.channels| == 3 && Consistent(Mounted(p))
  {
    hide VariantsFor, Sound, Dead, DirDisabled, SameMirrored, ClearedChannel, BoxesClear;
    ShapeOfSound(p);
    ClearedSound(None, p);
    forall i | 0 <= i < 3
      ensures ChannelConsistent(p.conType, i, Mounted(p).channels[i])
      ensures SameMirrored(p.channels[i], p.channels[0])
              ==> SameMirrored(Mounted(p).channels[i], Mounted(p).channels[0])
    {
      MountedChannel(p.conType, i, p.channels[i], DirDisabled(p.conType, i));
      ClearedKeepsMirrored(p.channels[i], Dead(p.conType, i), DirDisabled(p.conType, i));
      ClearedKeepsMirrored(p.channels[0], Dead(p.conType, 0), DirDisabled(p.conType, 0));
      if SameMirrored(p.channels[i], p.channels[0]) {
        MirrorChain(Mounted(p).channels[i], p.channels[i], p.channels[0], Mounted(p).channels[0]);
      }
    }
  }

  lemma MountedChannel(conType: UiText, i: nat, u: Channel, dirOff: bool)
    requires ChannelConsistent(conType, i, u)
    ensures ChannelConsistent(conType, i, ClearedChannel(u, Dead(conType, i), dirOff))
  {
  }

  lemma ConTypeOfSound(p: Page)
    requires Sound(p)
    ensures TextIn(p.conType, ConType, CON_TYPES)
  {
  }

  lemma ConTypeKept(p: Page, t: UiText)
    requires |p.channels| == 3
    ensures Step(p, SelectConType(t)).conType == t
  {
    hide VariantsFor;
  }

  // ---------- runs ----------

  /** The page after a run of edits, if every one of them was possible when it was made. */
  function Run(p: Page, es: seq<Edit>): (r: Option<Page>)
    requires |p.channels| == 3
    ensures r.Some? ==> |r.value.channels| == 3
  {
    if es == [] then Some(p)
    else
      match Run(p, es[..|es| - 1])
      case None => None
      case Some(q) => if Enabled(q, es[|es| - 1]) then Some(Step(q, es[|es| - 1])) else None
  }

  lemma {:induction false} RunSound(p: Page, es: seq<Edit>)
    requires Sound(p) && |p.channels| == 3 && Run(p, es).Some?
    ensures Sound(Run(p, es).value)
  {
    hide Sound, Step, Enabled;
    if es != [] {
      RunSound(p, es[..|es| - 1]);
      StepSound(Run(p, es[..|es| - 1]).value, es[|es| - 1]);
    }
  }

  lemma {:induction false} RunKeeps(p: Page, es: seq<Edit>)
    requires Consistent(p) && |p.channels| == 3 && Run(p, es).Some?
    ensures Consistent(Run(p, es).value)
  {
    hide Consistent, Step, Enabled;
    if es != [] {
      RunKeeps(p, es[..|es| - 1]);
      StepKeeps(Run(p, es[..|es| - 1]).value, es[|es| - 1]);
    }
  }

  /** The data variant is in its menu, and the menu is the one the module version and the connection
      type call for; three single phases leave one secondary current; a balanced connection has the
      same selections and sliders on every channel. */
  predicate MenusAndMirrors(p: Page)
    requires |p.channels| == 3
  {
    && MenuCurrent(p) && p.variantSelection.Includes(p.variant)
    && (p.conType == SINGLES ==> forall i :: 0 <= i < 3 ==> p.channels[i].ctSecond == CT_0)
    && (p.conType == BALANCED ==> forall i :: 0 <= i < 3 ==> SameMirrored(p.channels[i], p.channels[0]))
  }

  lemma ConsistentMeans(p: Page)
    requires Consistent(p)
    ensures |p.channels| == 3 && MenusAndMirrors(p)
  {
    hide VariantsFor, ModuleSound, ChannelConsistent, TextIn;
    ShapeOfSound(p);
    SelfMirrored(p.channels[0]);
  }

  /** Every run from the default page ends in a page with current menus and equal mirrored entries,
      whose export is valid. */
  lemma EveryRunIsConsistent(es: seq<Edit>)
    requires |PAGE_DEFAULT.channels| == 3 && Run(PAGE_DEFAULT, es).Some?
    ensures MenusAndMirrors(Run(PAGE_DEFAULT, es).value)
    ensures SlotValid(ToDevice(Run(PAGE_DEFAULT, es).value))
  {
    hide Run, ToDevice, Sound, SlotValid, MenusAndMirrors, PAGE_DEFAULT, MenuCurrent, ChannelConsistent, SameMirrored;
    DefaultConsistent();
    RunKeeps(PAGE_DEFAULT, es);
    ConsistentMeans(Run(PAGE_DEFAULT, es).value);
    SoundIsValid(Run(PAGE_DEFAULT, es).value);
  }

  // ---------- the reverse current direction ----------

  /** On choosing the balanced connection the current direction of channel 0 is copied to the
      others, whose boxes are disabled by the same change. A box that was enabled before is then
      cleared, so the channels agree right after the choice exactly when channel 0 was clear or the
      channel was dead already. */
  lemma DirectionCopiedIff(p: Page, i: nat)
    requires |p.channels| == 3 && p.conType != BALANCED && 1 <= i < 3 && p.channels[0].reCurDir.Flag?
    ensures var q := Step(p, SelectConType(BALANCED));
      && q.conType == BALANCED && q.channels[0].reCurDir == p.channels[0].reCurDir
      && (q.channels[i].reCurDir == q.channels[0].reCurDir
          <==> p.channels[0].reCurDir == Flag(false) || Dead(p.conType, i))
  {
    hide VariantsFor, WithVariants, WithCt;
    VariantsLeaveRest(p.(conType := BALANCED));
    CtKeepsDirection(BALANCED, p.channels[0]);
    CtKeepsDirection(BALANCED, p.channels[i]);
  }

  lemma CtKeepsDirection(conType: UiText, u: Channel)
    ensures WithCt(conType, u).reCurDir == u.reCurDir
  {
  }

  /** Setting the direction of channel 0 reaches the others. */
  lemma DirectionFollows(p: Page, on: bool, i: nat)
    requires |p.channels| == 3 && p.conType == BALANCED && i < 3
    ensures Step(p, Check(0, ReCurDir, on)).channels[i].reCurDir == Flag(on)
  {
    SettledNothing(Handled(p, Check(0, ReCurDir, on)));
  }

  /** Showing a balanced page again clears the copies. */
  lemma ShownAgain(p: Page, i: nat)
    requires |p.channels| == 3 && p.conType == BALANCED && 1 <= i < 3 && p.channels[0].reCurDir.Flag?
    ensures Mounted(p).conType == BALANCED
    ensures Mounted(p).channels[0].reCurDir == p.channels[0].reCurDir && Mounted(p).channels[i].reCurDir == Flag(false)
    ensures Mounted(p).channels[i].reCurDir == Mounted(p).channels[0].reCurDir
            <==> p.channels[0].reCurDir == Flag(false)
  {
  }

  /** What happens to a page between two choices of the connection type. */
  datatype Event = Edited(e: Edit) | Shown

  function After(p: Page, es: seq<Event>): (q: Page)
    requires |p.channels| == 3
    ensures |q.channels| == 3
  {
    if es == [] then p
    else
      match es[|es| - 1]
      case Edited(e) => Step(After(p, es[..|es| - 1]), e)
      case Shown => Mounted(After(p, es[..|es| - 1]))
  }

  /** Every edit was possible when it was made, and none chose a connection type. */
  predicate Keeping(p: Page, es: seq<Event>)
    requires |p.channels| == 3
  {
    es != [] ==>
      && Keeping(p, es[..|es| - 1])
      && (es[|es| - 1].Edited? ==>
            !es[|es| - 1].e.SelectConType? && Enabled(After(p, es[..|es| - 1]), es[|es| - 1].e))
  }

  predicate SetsDirection(e: Edit) {
    e.Check? && e.box == ReCurDir && e.i == 0
  }

  /** Channel i holds a copy: made by the choice of the balanced type for a channel that was dead under
      the old type, or by setting channel 0 since, and the page has not been shown again after that. */
  predicate Copied(was: UiText, es: seq<Event>, i: nat) {
    if es == [] then Dead(was, i)
    else if es[|es| - 1].Shown? then false
    else SetsDirection(es[|es| - 1].e) || Copied(was, es[..|es| - 1], i)
  }

  lemma DirectionStep(p: Page, e: Edit, i: nat)
    requires |p.channels| == 3 && p.conType == BALANCED && 1 <= i < 3
    requires Enabled(p, e) && !e.SelectConType?
    ensures Step(p, e).conType == BALANCED
    ensures SetsDirection(e) ==> forall j :: 0 <= j < 3 ==> Step(p, e).channels[j].reCurDir == Flag(e.on)
    ensures !SetsDirection(e) ==> Step(p, e).channels[0].reCurDir == p.channels[0].reCurDir
    ensures !SetsDirection(e) ==> Step(p, e).channels[i].reCurDir == p.channels[i].reCurDir
  {
    hide VariantsFor, WithVariants, Cleared, TextIn, Bounds, Clamp;
    VariantsLeaveRest(p);
    SettledNothing(Handled(p, e));
    match e
    case SelectVersion(t) => VariantsLeaveRest(p.(version := t));
    case _ =>
  }

  /** From the choice of the balanced type on, in every run of edits and showings that keeps it, a
      channel agrees with channel 0 exactly while channel 0 is clear or the channel holds a copy. */
  lemma {:induction false} DirectionMirroredIff(p: Page, es: seq<Event>, i: nat)
    requires |p.channels| == 3 && p.conType != BALANCED && 1 <= i < 3 && p.channels[0].reCurDir.Flag?
    requires Keeping(Step(p, SelectConType(BALANCED)), es)
    ensures var q := After(Step(p, SelectConType(BALANCED)), es);
      && q.conType == BALANCED && q.channels[0].reCurDir.Flag?
      && (q.channels[i].reCurDir == q.channels[0].reCurDir
          <==> q.channels[0].reCurDir == Flag(false) || Copied(p.conType, es, i))
  {
    hide Step, Mounted, Enabled, SetsDirection, Dead;
    if es == [] {
      DirectionCopiedIff(p, i);
    } else {
      var init := es[..|es| - 1];
      DirectionMirroredIff(p, init, i);
      var q := After(Step(p, SelectConType(BALANCED)), init);
      match es[|es| - 1]
      case Edited(e) => DirectionStep(q, e, i);
      case Shown => ShownAgain(q, i);
    }
  }

  /** A single phase with its direction set becomes balanced and all channels agree; showing the page
      again makes them differ. */
  lemma DirectionLost(p: Page, i: nat)
    requires |p.channels| == 3 && p.conType == ONE_PHASE && 1 <= i < 3 && p.channels[0].reCurDir == Flag(true)
    ensures var q := Step(p, SelectConType(BALANCED));
      && q.channels[i].reCurDir == q.channels[0].reCurDir
      && Mounted(q).channels[i].reCurDir != Mounted(q).channels[0].reCurDir
  {
    hide Step, Mounted;
    DirectionCopiedIff(p, i);
    ShownAgain(Step(p, SelectConType(BALANCED)), i);
  }

  // ---------- imported pages ----------

  /** The menu of an imported page is the full one; it is out of date unless this is the menu the
      entries call for, and out of reach when the module is deactivated. */
  predicate Harmless(m: MeterModule) {
    m.conType == Num(0x00) || (m.moduleVersion == Num(112) && OneOf(m.conType, {0x0C, 0x0E, 0x0F}))
  }

  lemma ImportModuleSound(slot: SlotConfig)
    requires DeviceShaped(slot) && MeterModuleValid(slot.body.meter)
    ensures ModuleSound(ToUi(slot))
    ensures var m, p := slot.body.meter, ToUi(slot);
      p.version == Label(ModVer, m.moduleVersion.n) && p.conType == Label(ConType, m.conType.n)
      && p.variant == Label(DataVariant, m.dataVariant.n) && p.variantSelection == ALL_VARIANTS_OFFERED
  {
    hide YamlToUi, METER_TABLE, ToUiChannel, Variants;
    UiIs(slot);
    VariantsInTable(slot.body.meter.moduleVersion.n, slot.body.meter.conType.n);
  }

  lemma VariantsInTable(version: int, conType: int)
    requires version in {32, 112} && conType in CON_TYPES
    ensures Variants(version, conType) <= VARIANTS
  {
    VariantsMatchSchema(Label(ModVer, version), Label(ConType, conType));
  }

  lemma ImportSound(slot: SlotConfig)
    requires DeviceShaped(slot) && BodyValid(Meter, slot.body) && Harmless(slot.body.meter)
    ensures Sound(ToUi(slot))
  {
    hide ToUi, Variants, VariantsFor, VARIANTS, MeterModuleValid, ModuleSound;
    ThreeChannels(slot);
    ImportModuleSound(slot);
    UiIs(slot);
    var m, p := slot.body.meter, ToUi(slot);
    ValidModule(m);
    VariantsTotal(p.version, p.conType);
    VariantsMatchSchema(p.version, p.conType);
    FullMenuIff(m.moduleVersion.n, m.conType.n);
    forall i | 0 <= i < 3
      ensures ChannelSound(p.conType, p.channels[i])
    {
      assert slot.body.phases[i] in slot.body.phases;
    }
  }

  lemma ValidModule(m: MeterModule)
    requires MeterModuleValid(m)
    ensures OneOf(m.moduleVersion, {32, 112}) && OneOf(m.conType, CON_TYPES)
    ensures OneOf(m.dataVariant, Variants(m.moduleVersion.n, m.conType.n))
  {
  }

  /** The full menu is the right one exactly for version 112 with a three-phase type. */
  lemma FullMenuIff(version: int, conType: int)
    requires version in {32, 112} && conType in CON_TYPES
    ensures VariantsFor(Label(ModVer, version), Label(ConType, conType)).Some?
    ensures VariantsFor(Label(ModVer, version), Label(ConType, conType)).value.selection == ALL_VARIANTS_OFFERED
       <==> version == 112 && conType in {0x00, 0x0C, 0x0E, 0x0F}
  {
    VariantsMatchSchema(Label(ModVer, version), Label(ConType, conType));
    assert VARIANTS - {} == VARIANTS;
    assert 0xE3 in VARIANTS && 0xF6 in VARIANTS;
  }

  /** A label of the full menu that the entries do not call for. */
  function Stray(version: int): UiText {
    Label(DataVariant, if version == 32 then 0xE3 else 0xF6)
  }

  /** The menu of the page offers a label its entries do not call for. */
  predicate OffersStray(p: Page) {
    p.variantSelection == ALL_VARIANTS_OFFERED && p.conType != OFF
    && !(p.version == Label(ModVer, 112) && THREE_PHASE.Includes(p.conType))
  }

  lemma StrayChosen(p: Page)
    requires ModuleSound(p) && OffersStray(p)
    ensures |p.channels| == 3 && Enabled(p, SelectVariant(Stray(p.version.code)))
    ensures !SlotValid(ToDevice(Step(p, SelectVariant(Stray(p.version.code)))))
  {
    hide ToDevice, Variants, VariantsFor, VARIANTS, MeterModuleValid, ModuleSound, MeterChannelValid;
    ShapeOfModule(p);
    StrayListed(p.version.code, p.conType.code);
    var q := p.(variant := Stray(p.version.code));
    SettledNothing(q);
    DeviceIs(q);
    HeadShape(q);
    if SlotValid(ToDevice(q)) {
      assert RStrip(SM1238) == SM1238;
      EditableListed(q.version);
      ValidModule(ToDevice(q).body.meter);
    }
  }

  lemma HarmfulRun(slot: SlotConfig)
    requires DeviceShaped(slot) && BodyValid(Meter, slot.body) && !Harmless(slot.body.meter)
    ensures |ToUi(slot).channels| == 3
    ensures var es := [SelectVariant(Stray(slot.body.meter.moduleVersion.n))];
      Run(ToUi(slot), es).Some? && !SlotValid(ToDevice(Run(ToUi(slot), es).value))
  {
    hide ToUi, ToDevice, Enabled, Step, SlotValid, Variants, VARIANTS, MeterModuleValid, ModuleSound, MeterChannelValid;
    ImportModuleSound(slot);
    ValidModule(slot.body.meter);
    var p := ToUi(slot);
    StrayChosen(p);
    var es := [SelectVariant(Stray(p.version.code))];
    assert es[..0] == [] && Run(p, []) == Some(p);
  }

  lemma ShapeOfModule(p: Page)
    requires ModuleSound(p)
    ensures |p.channels| == 3 && p.mlfb == SM1238
    ensures TextIn(p.version, ModVer, EDITABLE_VERSIONS) && TextIn(p.conType, ConType, CON_TYPES)
  {
  }

  lemma StrayListed(version: int, conType: int)
    requires version in {32, 112} && conType in CON_TYPES
    ensures ALL_VARIANTS_OFFERED.Includes(Stray(version)) && Stray(version).code in VARIANTS
    ensures conType != 0x00 && !(version == 112 && conType in {0x0C, 0x0E, 0x0F})
            ==> Stray(version).code !in Variants(version, conType)
  {
  }

  /** Import does not recompute the menu of data variants. Of the slots the schema accepts, exactly
      those whose module is deactivated, or for which the full menu is right, stay acceptable
      whatever is edited afterwards. */
  lemma ImportedStaysValidIff(slot: SlotConfig)
    requires DeviceShaped(slot) && BodyValid(Meter, slot.body)
    ensures |ToUi(slot).channels| == 3
    ensures Harmless(slot.body.meter)
       <==> forall es :: Run(ToUi(slot), es).Some? ==> SlotValid(ToDevice(Run(ToUi(slot), es).value))
  {
    hide SlotValid, ToUi, ToDevice, Harmless, Run, Sound, BodyValid;
    ThreeChannels(slot);
    if Harmless(slot.body.meter) {
      ImportSound(slot);
      forall es | Run(ToUi(slot), es).Some?
        ensures SlotValid(ToDevice(Run(ToUi(slot), es).value))
      {
        RunSound(ToUi(slot), es);
        SoundIsValid(Run(ToUi(slot), es).value);
      }
    } else {
      HarmfulRun(slot);
    }
  }

  lemma ThreeChannels(slot: SlotConfig)
    requires DeviceShaped(slot)
    ensures |ToUi(slot).channels| == 3 && ToUi(slot).mlfb == SM1238
  {
  }
}
