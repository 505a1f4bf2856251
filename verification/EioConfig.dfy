/** The extended-IO configuration blob: convert2blob, convert2config and the checksum between
    them, for an arbitrary checksum function. */
module EioConfig {
  import opened Common
  import opened Bits
  import opened Modules
  import opened ModuleLaws
  import opened Framing

  type Word = x: int | 0 <= x < 0x1_0000_0000

  type Checksum = Bytes -> Word

  /** The configuration dictionary; key i stands for "slot{i}". */
  type Config = map<nat, SlotConfig>

  const HEAD := 16
  const SLOTS := 6

  // ---------- article numbers ----------

  /** bytes(s, 'ascii'). */
  function AsciiBytes(s: string): Result<Bytes> {
    if s == "" then Ok([])
    else if s[0] as int >= 128 then Err(UnicodeError)
    else
      var rest :- AsciiBytes(s[1..]);
      Ok([s[0] as int] + rest)
  }

  /** str(b, 'ascii'). */
  function AsciiText(b: Bytes): Result<string> {
    if b == [] then Ok("")
    else if b[0] >= 128 then Err(UnicodeError)
    else
      var rest :- AsciiText(b[1..]);
      Ok([b[0] as char] + rest)
  }

  predicate IsAscii(s: string) {
    forall i :: 0 <= i < |s| ==> s[i] as int < 128
  }

  // ---------- encoding ----------

  function EncodeSlot(slot: SlotConfig): Result<Bytes>
    requires WellShaped(Produce(slot.mlfb), slot.body)
  {
    var data :- Serialize(Produce(slot.mlfb), slot.body);
    var mlfb :- AsciiBytes(slot.mlfb);
    Ok(PackSlot(SlotBlob(SLOT_HEAD + |data|, Sized(mlfb, 20), 0x01, data)))
  }

  predicate WellShapedConfig(config: Config) {
    forall i :: i in config ==> WellShaped(Produce(config[i].mlfb), config[i].body)
  }

  /** The blobs of slot1 .. slot{n}. */
  function EncodeSlots(config: Config, n: nat): (r: Result<seq<Bytes>>)
    requires WellShapedConfig(config)
    ensures r.Ok? ==> |r.value| == n
  {
    if n == 0 then Ok([])
    else
      var init :- EncodeSlots(config, n - 1);
      if n !in config then Err(KeyError)
      else
        var slot :- EncodeSlot(config[n]);
        Ok(init + [slot])
  }

  /** The checksum is computed with its own four bytes cleared. */
  function CalcChecksum(blob: Bytes, crc: Checksum): Word
    requires |blob| >= HEAD
  {
    crc(blob[..12] + [0, 0, 0, 0] + blob[16..])
  }

  function BlobHead(size: nat, checksum: nat): (h: Bytes)
    ensures |h| == HEAD
  {
    [0x02, 0x00, 0x05, 0x00] + ToBE(0x01, 4) + ToBE(size, 4) + ToBE(checksum, 4)
  }

  function Seal(body: Bytes, crc: Checksum): Result<Bytes> {
    if |body| >= WORD then Err(StructError)
    else
      var blob := BlobHead(|body|, 0) + body;
      Ok(BlobHead(|body|, CalcChecksum(blob, crc)) + body)
  }

  function ConfigToBlob(config: Config, crc: Checksum): Result<Bytes>
    requires WellShapedConfig(config)
  {
    var slots :- EncodeSlots(config, SLOTS);
    Seal(Concat(slots), crc)
  }

  // ---------- decoding ----------

  function DecodeSlot(s: SlotBlob): Result<SlotConfig> {
    var text :- AsciiText(s.mlfb);
    var kind := Produce(text);
    var body :- Deserialize(kind, s.data);
    Ok(SlotConfig(Describe(kind), RStrip(text), body))
  }

  function DecodeSlots(ss: seq<SlotBlob>): (r: Result<seq<SlotConfig>>)
    ensures r.Ok? ==> |r.value| == |ss|
  {
    if ss == [] then Ok([])
    else
      var first :- DecodeSlot(ss[0]);
      var rest :- DecodeSlots(ss[1..]);
      Ok([first] + rest)
  }

  /** The size and checksum tests in front of the slots. */
  function OpenBlob(blob: Bytes, crc: Checksum): Result<Bytes> {
    if |blob| < HEAD then Err(StructError)
    else if FromBE(blob[8..12]) != |blob| - HEAD then Err(ValueError)
    else if FromBE(blob[12..16]) != CalcChecksum(blob, crc) then Err(ValueError)
    else Ok(blob[HEAD..])
  }

  /** The slots become slot1, slot2, ... in order. */
  function Numbered(slots: seq<SlotConfig>): (c: Config)
    ensures forall i: nat :: i in c <==> 1 <= i <= |slots|
    ensures forall i: nat :: i in c ==> c[i] == slots[i - 1]
  {
    if slots == [] then map[] else Numbered(slots[..|slots| - 1])[|slots| := slots[|slots| - 1]]
  }

  function BlobToConfig(blob: Bytes, crc: Checksum): Result<Config> {
    var body :- OpenBlob(blob, crc);
    var pieces :- SplitSlots(body);
    var slots :- DecodeSlots(pieces);
    Ok(Numbered(slots))
  }

  // ---------- article numbers survive ----------

  lemma {:induction false} AsciiBytesAccepts(s: string)
    ensures AsciiBytes(s).Ok? <==> IsAscii(s)
    ensures AsciiBytes(s).Ok? ==> |AsciiBytes(s).value| == |s|
    ensures AsciiBytes(s).Ok? ==> forall i :: 0 <= i < |s| ==> AsciiBytes(s).value[i] == s[i] as int
  {
    if s != "" {
      AsciiBytesAccepts(s[1..]);
      if IsAscii(s) {
        assert forall i :: 0 <= i < |s[1..]| ==> s[1..][i] == s[i + 1];
      }
      if AsciiBytes(s).Ok? {
        forall i | 0 <= i < |s|
          ensures s[i] as int < 128 && AsciiBytes(s).value[i] == s[i] as int
        {
          if i > 0 { assert s[1..][i - 1] == s[i]; }
        }
      }
    }
  }

  lemma {:induction false} AsciiTextAccepts(b: Bytes)
    ensures AsciiText(b).Ok? <==> forall i :: 0 <= i < |b| ==> b[i] < 128
    ensures AsciiText(b).Ok? ==> |AsciiText(b).value| == |b|
    ensures AsciiText(b).Ok? ==> forall i :: 0 <= i < |b| ==> AsciiText(b).value[i] as int == b[i]
  {
    if b != [] {
      AsciiTextAccepts(b[1..]);
      if forall i :: 0 <= i < |b| ==> b[i] < 128 {
        assert forall i :: 0 <= i < |b[1..]| ==> b[1..][i] == b[i + 1];
      }
      if AsciiText(b).Ok? {
        forall i | 0 <= i < |b|
          ensures b[i] < 128 && AsciiText(b).value[i] as int == b[i]
        {
          if i > 0 { assert b[1..][i - 1] == b[i]; }
        }
      }
    }
  }

  /** A string that only adds NULs behind r strips to r. */
  lemma {:induction false} RStripIs(s: string, r: string)
    requires |r| <= |s| && s[..|r|] == r
    requires forall i :: |r| <= i < |s| ==> s[i] == '\0'
    requires r != "" ==> r[|r| - 1] != '\0'
    ensures RStrip(s) == r
  {
    if |s| == |r| {
      assert s == r;
    } else {
      RStripIs(s[..|s| - 1], r);
    }
  }

  /** What the 20-byte field makes of an article number. */
  function FieldText(mlfb: string): (t: string)
    ensures |t| == 20
  {
    if |mlfb| >= 20 then mlfb[..20] else mlfb + seq(20 - |mlfb|, _ => '\0')
  }

  lemma FieldTextIs(mlfb: string)
    requires IsAscii(mlfb)
    ensures AsciiBytes(mlfb).Ok? && AsciiText(Sized(AsciiBytes(mlfb).value, 20)) == Ok(FieldText(mlfb))
  {
    AsciiBytesAccepts(mlfb);
    var field := Sized(AsciiBytes(mlfb).value, 20);
    AsciiTextAccepts(field);
    forall i | 0 <= i < 20
      ensures field[i] < 128 && field[i] == FieldText(mlfb)[i] as int
    {
    }
    forall i | 0 <= i < 20
      ensures AsciiText(field).value[i] == FieldText(mlfb)[i]
    {
      assert AsciiText(field).value[i] as int == FieldText(mlfb)[i] as int;
    }
    assert AsciiText(field).value == FieldText(mlfb);
  }

  /** The field keeps an article number, up to trailing NULs, exactly when it has room for it. */
  lemma FieldKeeps(mlfb: string)
    ensures |RStrip(mlfb)| <= 20 <==> RStrip(FieldText(mlfb)) == RStrip(mlfb)
  {
    if |RStrip(mlfb)| <= 20 {
      RStripIs(FieldText(mlfb), RStrip(mlfb));
    }
  }

  lemma {:induction false} RStripTwice(s: string)
    ensures RStrip(RStrip(s)) == RStrip(s)
  {
    RStripIs(RStrip(s), RStrip(s));
  }

  lemma ProduceKnown(mlfb: string)
    ensures KnownKind(Produce(mlfb))
    ensures Produce(RStrip(mlfb)) == Produce(mlfb)
  {
    RStripTwice(mlfb);
  }

  // ---------- the blob laws ----------

  /** What a slot looks like after a trip through the blob. */
  function Normalize(slot: SlotConfig): SlotConfig {
    SlotConfig(Describe(Produce(slot.mlfb)), RStrip(slot.mlfb), slot.body)
  }

  ghost predicate EncodableSlot(slot: SlotConfig) {
    IsAscii(slot.mlfb) && WellShaped(Produce(slot.mlfb), slot.body) && InWidth(Produce(slot.mlfb), slot.body)
  }

  /** All six slots are there, with the fields their modules need, each in its field's width. */
  ghost predicate Encodable(config: Config) {
    WellShapedConfig(config) && forall i :: 1 <= i <= SLOTS ==> i in config && EncodableSlot(config[i])
  }

  predicate ShortNumber(mlfb: string) {
    |RStrip(mlfb)| <= 20
  }

  function PieceOf(slot: SlotConfig): SlotBlob
    requires WellShaped(Produce(slot.mlfb), slot.body)
    requires Serialize(Produce(slot.mlfb), slot.body).Ok? && AsciiBytes(slot.mlfb).Ok?
  {
    var data := Serialize(Produce(slot.mlfb), slot.body).value;
    SlotBlob(SLOT_HEAD + |data|, Sized(AsciiBytes(slot.mlfb).value, 20), 0x01, data)
  }

  lemma EncodedSlot(slot: SlotConfig)
    requires EncodableSlot(slot)
    ensures AsciiBytes(slot.mlfb).Ok? && Serialize(Produce(slot.mlfb), slot.body).Ok?
    ensures EncodeSlot(slot) == Ok(PackSlot(PieceOf(slot)))
    ensures ValidSlot(PieceOf(slot)) && PieceOf(slot).length <= 300
  {
    hide WellShaped, FieldText, AsciiText, IsAscii, Serialize, InWidth, Deserialize, AsciiBytes;
    ProduceKnown(slot.mlfb);
    ModuleRoundTrip(Produce(slot.mlfb), slot.body, []);
    FieldTextIs(slot.mlfb);
  }

  /** A slot whose article number fits its field is decoded to its normal form. */
  lemma SlotRoundTrip(slot: SlotConfig)
    requires EncodableSlot(slot) && ShortNumber(slot.mlfb)
    ensures AsciiBytes(slot.mlfb).Ok? && Serialize(Produce(slot.mlfb), slot.body).Ok?
    ensures DecodeSlot(PieceOf(slot)) == Ok(Normalize(slot))
  {
    hide Serialize, InWidth, Deserialize, AsciiBytes, AsciiText, Describe;
    EncodedSlot(slot);
    ProduceKnown(slot.mlfb);
    ModuleRoundTrip(Produce(slot.mlfb), slot.body, []);
    var data := Serialize(Produce(slot.mlfb), slot.body).value;
    assert data + [] == data;
    FieldTextIs(slot.mlfb);
    FieldKeeps(slot.mlfb);
    ProduceKnown(FieldText(slot.mlfb));
  }

  /** Whatever is decoded has an article number of at most 20 characters, without trailing NULs,
      and can be encoded. */
  lemma DecodedSlot(s: SlotBlob)
    requires |s.mlfb| == 20 && DecodeSlot(s).Ok?
    ensures EncodableSlot(DecodeSlot(s).value) && ShortNumber(DecodeSlot(s).value.mlfb)
    ensures |DecodeSlot(s).value.mlfb| <= 20
    ensures Normalize(DecodeSlot(s).value) == DecodeSlot(s).value
  {
    hide Deserialize, InWidth, AsciiText, Describe;
    AsciiTextAccepts(s.mlfb);
    var text := AsciiText(s.mlfb).value;
    ProduceKnown(text);
    RStripTwice(text);
    DeserializeAccepts(Produce(text), s.data);
    assert forall i :: 0 <= i < |RStrip(text)| ==> RStrip(text)[i] == text[i];
  }

  lemma {:induction false} JoinSnoc(ss: seq<SlotBlob>, s: SlotBlob)
    ensures Join(ss + [s]) == Join(ss) + PackSlot(s)
  {
    hide PackSlot;
    if ss == [] {
      assert ss + [s] == [s];
    } else {
      assert (ss + [s])[1..] == ss[1..] + [s];
      JoinSnoc(ss[1..], s);
    }
  }

  /** The slot list an encodable configuration is written as. */
  ghost function Pieces(config: Config, n: nat): (ps: seq<SlotBlob>)
    requires Encodable(config) && n <= SLOTS
    ensures |ps| == n
  {
    if n == 0 then []
    else
      EncodedSlot(config[n]);
      Pieces(config, n - 1) + [PieceOf(config[n])]
  }

  lemma {:induction false} PieceAt(config: Config, n: nat, i: nat)
    requires Encodable(config) && n <= SLOTS && i < n
    ensures EncodableSlot(config[i + 1])
    ensures AsciiBytes(config[i + 1].mlfb).Ok?
    ensures Serialize(Produce(config[i + 1].mlfb), config[i + 1].body).Ok?
    ensures Pieces(config, n)[i] == PieceOf(config[i + 1])
  {
    hide PieceOf, Serialize, Produce, AsciiBytes, WellShaped;
    EncodedSlot(config[i + 1]);
    if i + 1 < n {
      PieceAt(config, n - 1, i);
    }
  }

  lemma {:induction false} EncodedSlots(config: Config, n: nat)
    requires Encodable(config) && n <= SLOTS
    ensures EncodeSlots(config, n).Ok? && Concat(EncodeSlots(config, n).value) == Join(Pieces(config, n))
    ensures ValidSlots(Pieces(config, n)) && |Join(Pieces(config, n))| <= 300 * n
  {
    hide PieceOf, EncodeSlot, PackSlot, Serialize, Produce, AsciiBytes, ValidSlot, WellShaped;
    if n > 0 {
      EncodedSlots(config, n - 1);
      EncodedSlot(config[n]);
      JoinSnoc(Pieces(config, n - 1), PieceOf(config[n]));
      ConcatSnoc(EncodeSlots(config, n - 1).value, EncodeSlot(config[n]).value);
    }
  }

  lemma {:induction false} DecodeAll(ss: seq<SlotBlob>)
    ensures DecodeSlots(ss).Ok? <==> forall i :: 0 <= i < |ss| ==> DecodeSlot(ss[i]).Ok?
    ensures DecodeSlots(ss).Ok? ==> forall i :: 0 <= i < |ss| ==> DecodeSlots(ss).value[i] == DecodeSlot(ss[i]).value
  {
    hide DecodeSlot;
    if ss != [] {
      DecodeAll(ss[1..]);
      assert ss == [ss[0]] + ss[1..];
    }
  }

  /** A sealed body passes the size and the checksum test, and comes out unchanged. */
  lemma SealOpens(body: Bytes, crc: Checksum)
    requires |body| < WORD
    ensures Seal(body, crc).Ok? && OpenBlob(Seal(body, crc).value, crc) == Ok(body)
  {
    hide ToBE, FromBE;
    var sum := CalcChecksum(BlobHead(|body|, 0) + body, crc);
    var blob := BlobHead(|body|, sum) + body;
    WordRoundTrip(|body|);
    WordRoundTrip(sum);
    assert blob[8..12] == ToBE(|body|, 4) && blob[12..16] == ToBE(sum, 4) && blob[HEAD..] == body;
    var cleared := BlobHead(|body|, 0) + body;
    assert cleared[..12] == blob[..12] && cleared[16..] == blob[16..];
  }

  /** convert2blob succeeds on every encodable configuration, and its output is the sealed slot list. */
  lemma EncodingSucceeds(config: Config, crc: Checksum)
    requires Encodable(config)
    ensures ConfigToBlob(config, crc).Ok?
    ensures OpenBlob(ConfigToBlob(config, crc).value, crc) == Ok(Join(Pieces(config, SLOTS)))
    ensures SplitSlots(Join(Pieces(config, SLOTS))) == Ok(Pieces(config, SLOTS))
  {
    hide EncodeSlots, Pieces, Join, SplitSlots, Seal, OpenBlob, Concat;
    EncodedSlots(config, SLOTS);
    SealOpens(Join(Pieces(config, SLOTS)), crc);
    SplitOfJoin(Pieces(config, SLOTS));
  }

  ghost predicate SameConfig(c: Config, config: Config) {
    && (forall i: nat :: i in c <==> 1 <= i <= SLOTS)
    && forall i: nat :: i in c ==> i in config && c[i] == Normalize(config[i])
  }

  lemma NumbersSurvive(config: Config, crc: Checksum)
    requires Encodable(config) && forall i :: 1 <= i <= SLOTS ==> ShortNumber(config[i].mlfb)
    ensures ConfigToBlob(config, crc).Ok?
    ensures BlobToConfig(ConfigToBlob(config, crc).value, crc).Ok?
    ensures SameConfig(BlobToConfig(ConfigToBlob(config, crc).value, crc).value, config)
  {
    hide ConfigToBlob, OpenBlob, SplitSlots, DecodeSlot, DecodeSlots, Pieces, Join, Normalize, PieceOf;
    EncodingSucceeds(config, crc);
    var ps := Pieces(config, SLOTS);
    forall i | 0 <= i < SLOTS
      ensures DecodeSlot(ps[i]) == Ok(Normalize(config[i + 1]))
    {
      PieceAt(config, SLOTS, i);
      SlotRoundTrip(config[i + 1]);
    }
    DecodeAll(ps);
  }

  lemma DecodedNumbers(blob: Bytes, crc: Checksum, i: nat)
    requires BlobToConfig(blob, crc).Ok? && i in BlobToConfig(blob, crc).value
    ensures var slot := BlobToConfig(blob, crc).value[i];
      EncodableSlot(slot) && ShortNumber(slot.mlfb) && |slot.mlfb| <= 20 && Normalize(slot) == slot
  {
    hide OpenBlob, SplitSlots, DecodeSlot, Normalize, EncodableSlot, ShortNumber, Join;
    var body := OpenBlob(blob, crc).value;
    JoinOfSplit(body);
    var ps := SplitSlots(body).value;
    DecodeAll(ps);
    assert ValidSlot(ps[i - 1]);
    DecodedSlot(ps[i - 1]);
  }

  /** The blob round trip. Every encodable configuration is written as a blob, for any checksum
      function; reading the blob gives the configuration back, descriptions and trailing NULs of
      article numbers normalised, exactly when every article number fits its 20-byte field. */
  lemma BlobRoundTrip(config: Config, crc: Checksum)
    requires Encodable(config)
    ensures ConfigToBlob(config, crc).Ok?
    ensures var back := BlobToConfig(ConfigToBlob(config, crc).value, crc);
      back.Ok? && SameConfig(back.value, config) <==> forall i :: 1 <= i <= SLOTS ==> ShortNumber(config[i].mlfb)
  {
    hide ConfigToBlob, BlobToConfig, EncodableSlot, Describe, Produce;
    EncodingSucceeds(config, crc);
    var back := BlobToConfig(ConfigToBlob(config, crc).value, crc);
    if forall i :: 1 <= i <= SLOTS ==> ShortNumber(config[i].mlfb) {
      NumbersSurvive(config, crc);
    }
    if back.Ok? && SameConfig(back.value, config) {
      forall i | 1 <= i <= SLOTS
        ensures ShortNumber(config[i].mlfb)
      {
        DecodedNumbers(ConfigToBlob(config, crc).value, crc, i);
        assert back.value[i] == Normalize(config[i]);
      }
    }
  }

  /** The normal form. Any accepted blob with six slots, whatever its padding bits, version words,
      unknown modules and trailing slot bytes, decodes to a configuration that encodes again; the
      new blob decodes to the identical configuration, so encoding it once more changes no byte. */
  lemma BlobNormalForm(blob: Bytes, crc: Checksum)
    requires BlobToConfig(blob, crc).Ok?
    requires forall i: nat :: i in BlobToConfig(blob, crc).value <==> 1 <= i <= SLOTS
    ensures var c := BlobToConfig(blob, crc).value;
      Encodable(c) && ConfigToBlob(c, crc).Ok? && BlobToConfig(ConfigToBlob(c, crc).value, crc) == Ok(c)
  {
    hide BlobToConfig, ConfigToBlob, EncodableSlot, Normalize, ShortNumber, Produce;
    var c := BlobToConfig(blob, crc).value;
    forall i | i in c
      ensures EncodableSlot(c[i]) && ShortNumber(c[i].mlfb) && Normalize(c[i]) == c[i]
      ensures WellShaped(Produce(c[i].mlfb), c[i].body)
    {
      DecodedNumbers(blob, crc, i);
      ShapeOfEncodable(c[i]);
    }
    NumbersSurvive(c, crc);
    assert BlobToConfig(ConfigToBlob(c, crc).value, crc).value == c;
  }

  lemma ShapeOfEncodable(slot: SlotConfig)
    requires EncodableSlot(slot)
    ensures WellShaped(Produce(slot.mlfb), slot.body)
  {
  }

  /** A decoded blob can be written again exactly when it had at least six slots. */
  lemma ReencodesIff(blob: Bytes, crc: Checksum)
    requires BlobToConfig(blob, crc).Ok?
    ensures WellShapedConfig(BlobToConfig(blob, crc).value)
    ensures var c := BlobToConfig(blob, crc).value;
      ConfigToBlob(c, crc).Ok? <==> forall i: nat :: 1 <= i <= SLOTS ==> i in c
  {
    hide BlobToConfig, EncodableSlot, Normalize, ShortNumber, Produce, Seal, EncodeSlot, Serialize;
    var c := BlobToConfig(blob, crc).value;
    forall i | i in c
      ensures EncodableSlot(c[i]) && WellShaped(Produce(c[i].mlfb), c[i].body)
    {
      DecodedNumbers(blob, crc, i);
      ShapeOfEncodable(c[i]);
    }
    if forall i: nat :: 1 <= i <= SLOTS ==> i in c {
      EncodingSucceeds(c, crc);
    } else {
      var i: nat :| 1 <= i <= SLOTS && i !in c;
      MissingSlot(c, SLOTS, i);
    }
  }

  lemma {:induction false} MissingSlot(config: Config, n: nat, i: nat)
    requires WellShapedConfig(config) && 1 <= i <= n && i !in config
    ensures EncodeSlots(config, n).Err?
  {
    hide EncodeSlot, WellShaped, Produce;
    if i < n {
      MissingSlot(config, n - 1, i);
    }
  }
}
