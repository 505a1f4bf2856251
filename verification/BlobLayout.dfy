/** What the bytes of a configuration blob are, head and slots. */
module BlobLayout {
  import opened Common
  import opened Bits
  import opened Modules
  import opened ModuleLaws
  import opened Framing
  import opened EioConfig
  import opened RecordLayout

  /** An article number, cut or filled with NULs to 20 bytes. */
  function NumberField(mlfb: string): (r: Bytes)
    requires IsAscii(mlfb)
    ensures |r| == 20
  {
    seq(20, i requires 0 <= i < 20 => if i < |mlfb| then mlfb[i] as int else 0)
  }

  lemma RecordLength(k: Kind, b: Body)
    requires KnownKind(k) && WellShaped(k, b) && InWidth(k, b)
    ensures |Record(k, b)| == RecordBytes(k) <= 272
  {
    hide Serialize, Record, InWidth;
    SerializedAs(k, b);
    ModuleRoundTrip(k, b, []);
  }

  /** The bytes of a slot: length, article number, version 1, record. */
  ghost function SlotImage(slot: SlotConfig): (r: Bytes)
    requires EncodableSlot(slot)
    ensures |r| <= 300
  {
    ProduceKnown(slot.mlfb);
    RecordLength(Produce(slot.mlfb), slot.body);
    var record := Record(Produce(slot.mlfb), slot.body);
    Four(28 + |record|) + NumberField(slot.mlfb) + [0, 0, 0, 1] + record
  }

  lemma FieldIs(mlfb: string)
    requires IsAscii(mlfb)
    ensures AsciiBytes(mlfb).Ok? && Sized(AsciiBytes(mlfb).value, 20) == NumberField(mlfb)
  {
    AsciiBytesAccepts(mlfb);
  }

  lemma VersionWord()
    ensures ToBE(0x01, 4) == [0, 0, 0, 1]
  {
    hide ToBE;
    BigEndian(1);
    assert 1 / 0x100_0000 == 0 && 1 / 0x1_0000 == 0 && 1 / 0x100 == 0;
  }

  lemma SlotBytes(slot: SlotConfig)
    requires EncodableSlot(slot)
    ensures EncodeSlot(slot) == Ok(SlotImage(slot))
  {
    hide ToBE, Record, Serialize, InWidth, WellShaped, AsciiBytes, IsAscii, Produce, Four;
    ProduceKnown(slot.mlfb);
    var k := Produce(slot.mlfb);
    SerializedAs(k, slot.body);
    RecordLength(k, slot.body);
    BigEndian(28 + |Record(k, slot.body)|);
    VersionWord();
    FieldIs(slot.mlfb);
  }

  /** The slots, one behind the other. */
  ghost function SlotImages(config: Config): (r: seq<Bytes>)
    requires Encodable(config)
    ensures |r| == 6 && forall i :: 0 <= i < 6 ==> r[i] == SlotImage(config[i + 1])
  {
    seq(SLOTS, i requires 0 <= i < SLOTS => SlotImage(config[i + 1]))
  }

  lemma {:induction false} SlotsEncoded(config: Config, n: nat)
    requires Encodable(config) && n <= SLOTS
    ensures EncodeSlots(config, n) == Ok(SlotImages(config)[..n])
  {
    hide EncodeSlot, SlotImage, EncodableSlot, WellShaped;
    if n > 0 {
      SlotsEncoded(config, n - 1);
      SlotBytes(config[(n - 1) + 1]);
      assert SlotImages(config)[..n] == SlotImages(config)[..n - 1] + [SlotImages(config)[n - 1]];
    }
  }

  lemma {:induction false} TotalLength(images: seq<Bytes>)
    requires forall i :: 0 <= i < |images| ==> |images[i]| <= 300
    ensures |Concat(images)| <= 300 * |images|
  {
    if images != [] {
      TotalLength(images[..|images| - 1]);
    }
  }

  /** The head: magic 02 00 05 00, version 1, length of the slots, checksum. */
  function HeadImage(length: nat, checksum: nat): Bytes
    requires length < WORD && checksum < WORD
  {
    [0x02, 0x00, 0x05, 0x00] + [0, 0, 0, 1] + Four(length) + Four(checksum)
  }

  /** Every encodable configuration is written as these bytes, the checksum being that of the blob
      with zeros in its place. */
  lemma BlobBytes(config: Config, crc: Checksum)
    requires Encodable(config)
    ensures var body := Concat(SlotImages(config));
      && |body| < WORD
      && ConfigToBlob(config, crc) == Ok(HeadImage(|body|, crc(HeadImage(|body|, 0) + body)) + body)
  {
    hide ToBE, Concat, EncodeSlots, SlotImages, Four;
    var images := SlotImages(config);
    SlotsEncoded(config, SLOTS);
    assert images[..SLOTS] == images;
    ShortImages(config);
    TotalLength(images);
    var body := Concat(images);
    SealBytes(body, crc);
  }

  lemma ShortImages(config: Config)
    requires Encodable(config)
    ensures forall i :: 0 <= i < SLOTS ==> |SlotImages(config)[i]| <= 300
  {
    hide SlotImage;
    forall i | 0 <= i < SLOTS
      ensures |SlotImages(config)[i]| <= 300
    {
      assert EncodableSlot(config[i + 1]);
    }
  }

  lemma SealBytes(body: Bytes, crc: Checksum)
    requires |body| < WORD
    ensures Seal(body, crc) == Ok(HeadImage(|body|, crc(HeadImage(|body|, 0) + body)) + body)
  {
    hide ToBE;
    BigEndian(|body|);
    BigEndian(0);
    VersionWord();
    var cleared := HeadImage(|body|, 0) + body;
    assert BlobHead(|body|, 0) == HeadImage(|body|, 0);
    assert cleared[..12] + [0, 0, 0, 0] + cleared[16..] == cleared;
    BigEndian(crc(cleared));
  }

  /** The number in four big-endian bytes. */
  function Number(b: Bytes, at: nat): nat
    requires at + 4 <= |b|
  {
    b[at] as int * 0x100_0000 + b[at + 1] as int * 0x1_0000 + b[at + 2] as int * 0x100 + b[at + 3]
  }

  lemma Digits(n: nat)
    requires n < WORD
    ensures Four(n)[0] as int * 0x100_0000 + Four(n)[1] as int * 0x1_0000 + Four(n)[2] as int * 0x100 + Four(n)[3] == n
  {
    var a := n / 0x100;
    var b := a / 0x100;
    assert n / 0x1_0000 == b && n / 0x100_0000 == b / 0x100;
    assert b == b / 0x100 * 0x100 + b % 0x100 && a == b * 0x100 + a % 0x100;
  }

  lemma NumberIs(b: Bytes, at: nat)
    requires at + 4 <= |b|
    ensures FromBE(b[at..at + 4]) == Number(b, at)
  {
    hide FromBE, ToBE, Four;
    var w := b[at..at + 4];
    ReadWord(w);
    BigEndian(FromBE(w));
    Digits(FromBE(w));
  }

  /** What a blob is refused for before its slots are looked at. */
  lemma HeadRefused(blob: Bytes, crc: Checksum)
    ensures |blob| < 16 ==> BlobToConfig(blob, crc) == Err(StructError)
    ensures |blob| >= 16 && Number(blob, 8) != |blob| - 16 ==> BlobToConfig(blob, crc) == Err(ValueError)
    ensures |blob| >= 16 && Number(blob, 12) != crc(blob[..12] + [0, 0, 0, 0] + blob[16..])
        ==> BlobToConfig(blob, crc) == Err(ValueError)
  {
    hide FromBE, Number, SplitSlots, DecodeSlots;
    if |blob| >= 16 {
      NumberIs(blob, 8);
      NumberIs(blob, 12);
    }
  }

  /** And for its first slot: too short for a head, or of a length that cannot be. */
  lemma SlotRefused(body: Bytes)
    requires |body| > 0
    ensures |body| < 28 ==> SplitSlots(body) == Err(ValueError)
    ensures |body| >= 28 && !(28 <= Number(body, 0) <= |body|) ==> SplitSlots(body) == Err(StructError)
    ensures SplitSlots(body).Ok? ==> |body| >= 28 && 28 <= Number(body, 0) <= |body| && SplitSlots(body).value != []
    ensures SplitSlots(body).Ok? ==>
      SplitSlots(body).value[0] == SlotBlob(Number(body, 0), body[4..24], Number(body, 24), body[28..Number(body, 0)])
  {
    hide FromBE, Number;
    if |body| >= 28 {
      NumberIs(body, 0);
      NumberIs(body, 24);
    }
  }
}
