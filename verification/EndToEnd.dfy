/** The whole chain: page, device configuration, blob, device configuration, page. */
module EndToEnd {
  import opened Common
  import opened Bits
  import opened Modules
  import opened ModuleLaws
  import opened EioConfig
  import opened EioCodec
  import opened Schema
  import opened TextTables
  import opened SmConfig
  import S = SlotPage
  import D = DigitalPage
  import R = RtdPage
  import A = AiPage
  import M = MeterPage

  // ---------- offered pages ----------

  predicate RtdOffered(u: R.Channel) {
    R.Labelled(u) && u.overflow.Flag? && u.underflow.Flag? && u.openWire.Flag?
  }

  predicate AiOffered(u: A.Channel) {
    A.Labelled(u) && u.overflow.Flag? && u.underflow.Flag? && u.openWire.Flag?
  }

  predicate MeterOffered(p: M.Page) {
    && TextIn(p.version, ModVer, M.VERSIONS) && TextIn(p.conType, ConType, CON_TYPES)
    && TextIn(p.range, Range, M.RANGES)
    && TextIn(p.freq, LineFreq, M.FREQS) && TextIn(p.period, PeriodMeters, M.PERIODS)
    && TextIn(p.variant, DataVariant, M.VARIANTS)
    && p.gate.Flag? && p.minMax.Flag? && p.diagLine.Flag? && Within(p.lineTol, 1, 50)
  }

  predicate PhaseOffered(u: M.Channel) {
    && u.overCur.Flag? && u.overCal.Flag? && u.llVol.Flag? && u.underVol.Flag? && u.overVol.Flag?
    && u.enGate.Flag? && u.actHour.Flag? && u.reCurDir.Flag? && M.BOTH_CTS.Includes(u.ctSecond)
    && Within(u.tolVal, 10, 100) && Within(u.tolTime, 0, 60000) && Within(u.ctPrimary, 1, 99999)
    && Within(u.llCur, 2, 250) && Within(u.vtSecond, 1, 500) && Within(u.vtPrim, 1, 999999)
  }

  /** Every entry holds one of its labels, a tick or a number in its range; nothing is asked of how
      entries go together. */
  predicate Offered(u: UiSlot) {
    Shaped(u) &&
    match u
    case DigitalSlot(p) => D.Consistent(p)
    case InputSlot(p) => D.InputConsistent(p)
    case RtdSlot(p) =>
      TextIn(p.integTime, IntTime, R.QUARTERS) && p.powerAlarm.Flag? && forall c :: c in p.channels ==> RtdOffered(c)
    case AiSlot(p) =>
      TextIn(p.integTime, IntTime, A.QUARTERS) && p.powerAlarm.Flag? && forall c :: c in p.channels ==> AiOffered(c)
    case MeterSlot(p) => MeterOffered(p) && forall c :: c in p.channels ==> PhaseOffered(c)
    case _ => true
  }

  lemma RtdChannelExport(u: R.Channel, i: nat)
    requires RtdOffered(u) && i <= 7
    ensures R.ChannelKept(R.ToDeviceChannel(u, i)) && RtdInWidth(R.ToDeviceChannel(u, i))
  {
    hide R.ToDeviceChannel, R.RTD_TABLE, Pow2;
    Widths();
    R.DeviceChannelIs(u, i);
  }

  lemma AiChannelExport(u: A.Channel, i: nat)
    requires AiOffered(u) && i <= 7
    ensures A.ChannelKept(A.ToDeviceChannel(u, i)) && AiInWidth(A.ToDeviceChannel(u, i))
  {
    hide A.ToDeviceChannel, A.AI_TABLE, Pow2;
    Widths();
    A.DeviceChannelIs(u, i);
  }

  lemma RtdExport(p: R.Page)
    requires Offered(RtdSlot(p))
    ensures ListedSlot(R.ToDevice(p)) && EncodableSlot(R.ToDevice(p))
  {
    hide R.ToDeviceChannel, R.RTD_TABLE, UiToYaml, R.ChannelKept, RtdInWidth, RtdOffered, Pow2, RStrip, IsAscii;
    Widths();
    R.RtdTranslates(0);
    ListedNumbers(p.mlfb);
    NumbersKeep(p.mlfb);
    var b := R.ToDevice(p).body;
    forall i | 0 <= i < |b.rtd|
      ensures R.ChannelKept(b.rtd[i]) && RtdInWidth(b.rtd[i])
    {
      RtdChannelExport(p.channels[i], i);
    }
  }

  lemma AiExport(p: A.Page)
    requires Offered(AiSlot(p))
    ensures ListedSlot(A.ToDevice(p)) && EncodableSlot(A.ToDevice(p))
  {
    hide A.ToDeviceChannel, A.AI_TABLE, UiToYaml, A.ChannelKept, AiInWidth, AiOffered, Pow2, RStrip, IsAscii;
    Widths();
    A.AiTranslates(0);
    ListedNumbers(p.mlfb);
    NumbersKeep(p.mlfb);
    var b := A.ToDevice(p).body;
    forall i | 0 <= i < |b.ai|
      ensures A.ChannelKept(b.ai[i]) && AiInWidth(b.ai[i])
    {
      AiChannelExport(p.channels[i], i);
    }
  }

  lemma PhaseExport(u: M.Channel)
    requires PhaseOffered(u)
    ensures MeterInWidth(M.PhaseOf(u)) && Kept(M.PhaseOf(u).ctSecondCur, M.CTS)
  {
    hide Pow2;
    Widths();
  }

  lemma ModuleExport(p: M.Page, m: MeterModule)
    requires MeterOffered(p)
    requires m == MeterModule(
                    Read(p.version, ModVer, M.VERSIONS), Read(p.conType, ConType, CON_TYPES),
                    Read(p.range, Range, M.RANGES),
                    p.gate, Read(p.period, PeriodMeters, M.PERIODS), Read(p.freq, LineFreq, M.FREQS),
                    p.lineTol, p.minMax, p.diagLine, Read(p.variant, DataVariant, M.VARIANTS))
    ensures MeterModuleInWidth(m) && M.ModuleKept(m)
  {
    hide Pow2;
    Widths();
    VariantBytes(p.variant);
  }

  lemma VariantBytes(t: UiText)
    requires TextIn(t, DataVariant, M.VARIANTS)
    ensures 0 <= t.code < 256
  {
  }

  lemma MeterExport(p: M.Page)
    requires Offered(MeterSlot(p))
    ensures ListedSlot(M.ToDevice(p)) && EncodableSlot(M.ToDevice(p))
  {
    hide M.ToDevice, PhaseOffered, MeterOffered, MeterInWidth, MeterModuleInWidth, M.ModuleKept, Kept, M.PhaseOf,
         RStrip, IsAscii;
    M.HeadShape(p);
    M.DeviceIs(p);
    ListedNumbers(SM1238);
    NumbersKeep(SM1238);
    var b := M.ToDevice(p).body;
    ModuleExport(p, b.meter);
    forall i | 0 <= i < 3
      ensures MeterInWidth(b.phases[i]) && Kept(b.phases[i].ctSecondCur, M.CTS)
    {
      PhaseExport(p.channels[i]);
    }
  }

  /** Consistent digital pages are valid, so they are listed and encodable. */
  lemma ValidExport(slot: SlotConfig)
    requires SlotValid(slot) && Writable(Produce(slot.mlfb), slot.body)
    ensures ListedSlot(slot) && EncodableSlot(slot) && ShortNumber(slot.mlfb)
  {
    hide SlotValid, Writable, ListedSlot, EncodableSlot;
    ValidIsListed(slot);
    ValidSlotEncodes(slot);
  }

  lemma OfferedExport(u: UiSlot)
    requires Offered(u)
    ensures ListedSlot(ExportSlot(u)) && EncodableSlot(ExportSlot(u)) && ShortNumber(ExportSlot(u).mlfb)
  {
    hide ListedSlot, EncodableSlot, D.ToDevice, D.InputToDevice, R.ToDevice, A.ToDevice, M.ToDevice, D.Consistent,
         D.InputConsistent, SlotValid, Writable, RtdOffered, AiOffered, MeterOffered, PhaseOffered, RStrip, NUMBERS;
    match u
    case NoneSlot =>
      S.PlainValid();
      ValidExport(ExportSlot(u));
    case SensDiSlot =>
      S.PlainValid();
      ValidExport(ExportSlot(u));
    case DigitalSlot(p) =>
      S.DigitalExport(p);
      ValidExport(ExportSlot(u));
    case InputSlot(p) =>
      S.InputExport(p);
      ValidExport(ExportSlot(u));
    case RtdSlot(p) =>
      RtdExport(p);
      ListedShort(ExportSlot(u));
    case AiSlot(p) =>
      AiExport(p);
      ListedShort(ExportSlot(u));
    case MeterSlot(p) =>
      MeterExport(p);
      ListedShort(ExportSlot(u));
  }

  lemma ListedShort(slot: SlotConfig)
    requires ListedSlot(slot)
    ensures ShortNumber(slot.mlfb) && RStrip(slot.mlfb) == slot.mlfb && slot.mlfb in NUMBERS
  {
    hide NUMBERS, SmConfig.Labelled, WellShaped;
    ListedNumbers(slot.mlfb);
  }

  // ---------- one slot through the blob ----------

  predicate SameModule(slot: SlotConfig, back: SlotConfig) {
    back.mlfb == slot.mlfb && back.body == slot.body
  }

  lemma NormalIsSame(slot: SlotConfig)
    requires ListedSlot(slot)
    ensures SameModule(slot, Normalize(slot)) && ListedSlot(Normalize(slot))
  {
    hide NUMBERS, SmConfig.Labelled, WellShaped, RStrip, Describe;
    ListedShort(slot);
  }

  /** What an export writes depends on the module alone, description included. */
  lemma SameModuleSameExport(u: UiSlot, w: UiSlot)
    requires Shaped(u) && Shaped(w) && SameModule(ExportSlot(u), ExportSlot(w))
    ensures ExportSlot(u) == ExportSlot(w)
  {
    hide UiToYaml, R.RTD_TABLE, A.AI_TABLE, M.METER_TABLE, D.SM1223_TABLE, D.SM1221_TABLE;
    DescriptionIs(u);
    DescriptionIs(w);
  }

  function DescriptionOf(mlfb: string): string {
    if D.Sm1223Number(mlfb) then D.Description(mlfb)
    else if R.RtdNumber(mlfb) then R.Description(mlfb)
    else if A.AiNumber(mlfb) then A.Description(mlfb)
    else if mlfb == SM1221 then "SM 1221 DI8 x 24VDC"
    else if mlfb == SM1238 then "SM1238 Energy Meter 480VAC"
    else if mlfb == SM_SENS_DI then "SM SENS DI"
    else "No module for this slot"
  }

  /** The description that comes with a module when it is read from a blob, and the one the page writes
      are the same, but for the SM1223 DC, which is read back under the name of the AC module. */
  lemma DescriptionsAgreeIff(mlfb: string)
    requires mlfb in NUMBERS
    ensures Describe(Produce(mlfb)) == DescriptionOf(mlfb) <==> mlfb != "6ES7223-1PL32-0XB0"
  {
    hide RStrip, NUMBERS, DescriptionOf, D.Sm1223Number, D.Description, R.RtdNumber, A.AiNumber;
    NumbersKeep(mlfb);
    ListedNumbers(mlfb);
    if D.Sm1223Number(mlfb) {
      DigitalDescription(mlfb);
    } else {
      OtherDescription(mlfb);
    }
  }

  lemma DigitalDescription(mlfb: string)
    requires D.Sm1223Number(mlfb) && RStrip(mlfb) == mlfb
    ensures Describe(Produce(mlfb)) == "SM 1223 DI8 x 120VAC / DQ8 x relay"
    ensures DescriptionOf(mlfb) == "SM 1223 DI8 x 120VAC / DQ8 x relay" <==> mlfb != "6ES7223-1PL32-0XB0"
  {
    hide RStrip;
    var dc := "SM 1223 DI16 x 24VAC / DQ16 x relay";
    assert dc[10] == '1' && "SM 1223 DI8 x 120VAC / DQ8 x relay"[10] == '8';
  }

  lemma OtherDescription(mlfb: string)
    requires mlfb in NUMBERS && !D.Sm1223Number(mlfb)
    ensures Describe(PageKind(mlfb)) == DescriptionOf(mlfb) && mlfb != "6ES7223-1PL32-0XB0"
  {
    hide RStrip, Produce, NUMBERS;
    NumbersKeep(mlfb);
  }

  lemma DescriptionIs(u: UiSlot)
    requires Shaped(u)
    ensures ExportSlot(u).description == DescriptionOf(ExportSlot(u).mlfb)
  {
    hide UiToYaml, R.RTD_TABLE, A.AI_TABLE, M.METER_TABLE, D.SM1223_TABLE, D.SM1221_TABLE;
  }

  /** Importing a listed slot and exporting it again gives the same module. */
  lemma SlotReturns(slot: SlotConfig)
    requires ListedSlot(slot)
    ensures DeviceShaped(slot) && ImportSlot(slot).Ok? && Shaped(ImportSlot(slot).value)
    ensures SameModule(slot, ExportSlot(ImportSlot(slot).value))
  {
    ListedSlotReturns(slot);
  }

  // ---------- whole configurations ----------

  ghost predicate SixSlots(config: Config) {
    forall i: nat :: i in config <==> 1 <= i <= SLOTS
  }

  ghost predicate SameModules(config: Config, back: Config) {
    SixSlots(config) && SixSlots(back) && forall i :: 1 <= i <= SLOTS ==> SameModule(config[i], back[i])
  }

  ghost predicate AllListed(config: Config) {
    SixSlots(config) && forall i :: 1 <= i <= SLOTS ==> ListedSlot(config[i])
  }

  predicate Returned(slot: SlotConfig, u: UiSlot) {
    Shaped(u) && SameModule(slot, ExportSlot(u))
  }

  lemma ListedShaped(config: Config)
    requires AllListed(config)
    ensures AllDeviceShaped(config)
  {
    hide ListedSlot, ImportSlot, ExportSlot, DeviceShaped, Shaped;
    forall i | i in config
      ensures DeviceShaped(config[i])
    {
      SlotReturns(config[i]);
    }
  }

  lemma {:induction false} ImportReturns(config: Config, n: nat)
    requires AllListed(config) && AllDeviceShaped(config) && n <= SLOTS
    ensures Import(config, n).Ok?
    ensures forall i :: 0 <= i < n ==> Returned(config[i + 1], Import(config, n).value[i])
  {
    hide ListedSlot, ImportSlot, ExportSlot, DeviceShaped, Shaped;
    if n > 0 {
      ImportReturns(config, n - 1);
      SlotReturns(config[n]);
    }
  }

  /** Importing a listed configuration and exporting it again changes descriptions only. */
  lemma ImportExport(config: Config)
    requires AllListed(config)
    ensures AllDeviceShaped(config) && Import(config, SLOTS).Ok? && AllShaped(Import(config, SLOTS).value)
    ensures SameModules(config, Export(Import(config, SLOTS).value))
  {
    hide ListedSlot, ImportSlot, ExportSlot, DeviceShaped, Shaped, Export, Import, SameModule;
    ListedShaped(config);
    ImportReturns(config, SLOTS);
    var us := Import(config, SLOTS).value;
    S.ExportedAt(us);
    forall i | 1 <= i <= SLOTS
      ensures SameModule(config[i], Export(us)[i])
    {
      assert Returned(config[(i - 1) + 1], us[i - 1]);
    }
  }

  lemma EncodeSlotSame(slot: SlotConfig, back: SlotConfig)
    requires WellShaped(Produce(slot.mlfb), slot.body) && SameModule(slot, back)
    ensures EncodeSlot(slot) == EncodeSlot(back)
  {
    hide WellShaped, Produce, Serialize, AsciiBytes;
  }

  lemma {:induction false} EncodeSame(config: Config, back: Config, n: nat)
    requires WellShapedConfig(config) && WellShapedConfig(back) && SameModules(config, back) && n <= SLOTS
    ensures EncodeSlots(config, n) == EncodeSlots(back, n)
  {
    hide WellShaped, Produce, Serialize, AsciiBytes, EncodeSlot;
    if n > 0 {
      EncodeSame(config, back, n - 1);
      EncodeSlotSame(config[n], back[n]);
    }
  }

  lemma ListedWellShaped(config: Config)
    requires AllListed(config)
    ensures WellShapedConfig(config)
  {
    hide NUMBERS, SmConfig.Labelled, WellShaped, RStrip, Produce;
    forall i | i in config
      ensures WellShaped(Produce(config[i].mlfb), config[i].body)
    {
      assert ListedSlot(config[i]);
      NumbersKeep(config[i].mlfb);
    }
  }

  lemma SameIsListed(config: Config, back: Config)
    requires AllListed(config) && SameModules(config, back)
    ensures AllListed(back)
  {
    hide PageKind, NUMBERS, SmConfig.Labelled, WellShaped;
    forall i | 1 <= i <= SLOTS
      ensures ListedSlot(back[i])
    {
      assert SameModule(config[i], back[i]);
    }
  }

  /** The device keeps what the page leaves alone: retrieving a configuration that the schemas accept
      and whose SM1223 outputs are all configured, and deploying it unedited, writes the same blob. */
  lemma RetrieveDeploy(config: Config, crc: Checksum)
    requires SchemaValid(config) && forall i ::
          i in config && Produce(config[i].mlfb).Sm1223? ==> ChannelsThere(config[i])
    ensures AllDeviceShaped(config) && Import(config, SLOTS).Ok? && AllShaped(Import(config, SLOTS).value)
    ensures WellShapedConfig(config) && WellShapedConfig(Export(Import(config, SLOTS).value))
    ensures ConfigToBlob(Export(Import(config, SLOTS).value), crc) == ConfigToBlob(config, crc)
  {
    hide SlotValid, ListedSlot, Import, Export, AllShaped, AllDeviceShaped, WellShapedConfig, EncodeSlots, SameModule;
    forall i | 1 <= i <= SLOTS
      ensures ListedSlot(config[i])
    {
      ThereIsWritable(config[i]);
      ValidIsListed(config[i]);
    }
    ImportExport(config);
    var back := Export(Import(config, SLOTS).value);
    SameIsListed(config, back);
    ListedWellShaped(config);
    ListedWellShaped(back);
    EncodeSame(config, back, SLOTS);
  }

  predicate ChannelsThere(slot: SlotConfig) {
    slot.body.InputsOutputs? ==> forall i :: 0 <= i < D.Channels(slot.mlfb) ==> i in slot.body.substitute
  }

  lemma ThereIsWritable(slot: SlotConfig)
    requires SlotValid(slot) && (Produce(slot.mlfb).Sm1223? ==> ChannelsThere(slot))
    ensures Produce(slot.mlfb).Sm1223? ==> Writable(Produce(slot.mlfb), slot.body)
  {
    hide NUMBERS, RStrip, BodyValid;
    NumbersKeep(slot.mlfb);
  }

  /** The configuration of an offered page. */
  lemma OfferedConfig(us: seq<UiSlot>)
    requires |us| == SLOTS && forall i :: 0 <= i < SLOTS ==> Offered(us[i])
    ensures AllShaped(us) && AllListed(Export(us)) && Encodable(Export(us))
    ensures forall i :: 1 <= i <= SLOTS ==> ShortNumber(Export(us)[i].mlfb) && Export(us)[i] == ExportSlot(us[i - 1])
  {
    hide ExportSlot, Shaped, Export, ListedSlot, EncodableSlot, ShortNumber, WellShaped, Produce;
    forall i | 0 <= i < SLOTS
      ensures Shaped(us[i]) && ListedSlot(ExportSlot(us[i])) && EncodableSlot(ExportSlot(us[i]))
      ensures ShortNumber(ExportSlot(us[i]).mlfb)
    {
      OfferedIsShaped(us[i]);
      OfferedExport(us[i]);
    }
    S.ExportedAt(us);
    ListedWellShaped(Export(us));
  }

  lemma OfferedIsShaped(u: UiSlot)
    requires Offered(u)
    ensures Shaped(u)
  {
  }

  /** A configuration read from its own blob, imported and exported, is the same one. */
  lemma {:induction false} BackThroughPage(us: seq<UiSlot>, config: Config, back: Config)
    requires AllShaped(us) && config == Export(us) && |us| == SLOTS && AllListed(config) && SameConfig(back, config)
    ensures AllDeviceShaped(back) && Import(back, SLOTS).Ok? && AllShaped(Import(back, SLOTS).value)
    ensures Export(Import(back, SLOTS).value) == config
  {
    hide ExportSlot, Shaped, Export, ListedSlot, Normalize, Import, DeviceShaped;
    forall i | 1 <= i <= SLOTS
      ensures i in back && SameModule(config[i], back[i]) && ListedSlot(back[i])
    {
      assert i in back && back[i] == Normalize(config[i]);
      NormalIsSame(config[i]);
    }
    ImportExport(back);
    var again := Import(back, SLOTS).value;
    ImportLength(back);
    S.ExportedAt(us);
    S.ExportedAt(again);
    forall i | 1 <= i <= SLOTS
      ensures Export(again)[i] == config[i]
    {
      assert SameModule(back[i], Export(again)[i]);
      SameModuleSameExport(us[i - 1], again[i - 1]);
    }
    assert Export(again) == config;
  }

  lemma ImportLength(config: Config)
    requires AllDeviceShaped(config) && Import(config, SLOTS).Ok?
    ensures |Import(config, SLOTS).value| == SLOTS
  {
  }

  /** Importing back and exporting it gives config. */
  predicate ReturnsFrom(back: Config, config: Config) {
    && AllDeviceShaped(back) && Import(back, SLOTS).Ok? && AllShaped(Import(back, SLOTS).value)
    && Export(Import(back, SLOTS).value) == config
  }

  /** The exported configuration becomes a blob; the blob becomes a configuration; that one, imported
      and exported again, is the first one. */
  ghost predicate ComesBack(us: seq<UiSlot>, crc: Checksum) {
    && AllShaped(us) && WellShapedConfig(Export(us)) && ConfigToBlob(Export(us), crc).Ok?
    && var blob := ConfigToBlob(Export(us), crc).value;
    && BlobToConfig(blob, crc).Ok? && ReturnsFrom(BlobToConfig(blob, crc).value, Export(us))
  }

  /** The end-to-end chain. For every page whose entries hold offered labels and numbers in range, and
      any checksum function: exporting it, encoding the configuration, decoding the blob, importing
      the result and exporting once more gives the same device configuration, descriptions included. */
  lemma EndToEndChain(us: seq<UiSlot>, crc: Checksum)
    requires |us| == SLOTS && forall i :: 0 <= i < SLOTS ==> Offered(us[i])
    ensures ComesBack(us, crc)
  {
    hide Offered, AllShaped, Export, BlobToConfig, ConfigToBlob, EncodableSlot, ListedSlot, Import, AllDeviceShaped,
         Normalize, WellShaped, Produce, ShortNumber;
    OfferedConfig(us);
    var config := Export(us);
    NumbersSurvive(config, crc);
    BackThroughPage(us, config, BlobToConfig(ConfigToBlob(config, crc).value, crc).value);
  }

  /** Whatever is done on the page, short of an import, can be deployed: the configuration passes both
      validations, is written as a blob and comes back from the device unchanged. */
  lemma EveryRunDeploys(es: seq<S.Event>, crc: Checksum)
    requires S.NoImport(es) && S.Run(S.INITIAL, es).Some?
    ensures S.Accepted(S.Run(S.INITIAL, es).value.slots)
    ensures ComesBack(S.Run(S.INITIAL, es).value.slots, crc)
  {
    hide S.Run, Shaped, Export, BlobToConfig, ConfigToBlob, SlotValid, ListedSlot, Writable, SemanticallyValid,
         S.Chained, Produce, WellShaped;
    S.EveryRunIsAccepted(es);
    var us := S.Run(S.INITIAL, es).value.slots;
    SixOf(es);
    var config := Export(us);
    ValidConfigEncodes(config, crc);
    forall i | 1 <= i <= SLOTS
      ensures ListedSlot(config[i])
    {
      ValidIsListed(config[i]);
    }
    BackThroughPage(us, config, BlobToConfig(ConfigToBlob(config, crc).value, crc).value);
  }

  lemma SixOf(es: seq<S.Event>)
    requires S.NoImport(es) && S.Run(S.INITIAL, es).Some?
    ensures |S.Run(S.INITIAL, es).value.slots| == SLOTS
  {
    hide S.Run, S.ConsistentSlot;
    S.InitialGood();
    S.RunGood(S.INITIAL, es);
  }
}
