/** The blob conversions and the semantic validation as the program runs them: loops over the six
    slots, and a checksum patched into a byte buffer. */
module EioCodec {
  import opened Common
  import opened Bits
  import opened Modules
  import opened ModuleLaws
  import opened Framing
  import opened EioConfig
  import Serializers

  /** struct.pack_into('>I', buffer, 12, word). */
  method PatchWord(buffer: array<byte>, word: Word)
    requires buffer.Length >= HEAD
    modifies buffer
    ensures buffer[..] == old(buffer[..12]) + ToBE(word, 4) + old(buffer[16..])
  {
    hide ToBE;
    var bytes := ToBE(word, 4);
    ghost var before := buffer[..];
    for i := 0 to 4
      invariant buffer[..12] == before[..12] && buffer[16..] == before[16..]
      invariant forall j :: 0 <= j < i ==> buffer[12 + j] == bytes[j]
    {
      buffer[12 + i] := bytes[i];
    }
    assert buffer[..] == buffer[..12] + buffer[12..16] + buffer[16..];
  }

  method ToBuffer(blob: Bytes) returns (buffer: array<byte>)
    ensures fresh(buffer) && buffer[..] == blob
  {
    buffer := new byte[|blob|](i requires 0 <= i < |blob| => blob[i]);
  }

  method ComputeChecksum(blob: Bytes, crc: Checksum) returns (checksum: Word)
    requires |blob| >= HEAD
    ensures checksum == CalcChecksum(blob, crc)
  {
    ZeroWord();
    var newBlob := ToBuffer(blob);
    PatchWord(newBlob, 0);
    checksum := crc(newBlob[..]);
  }

  lemma ZeroWord()
    ensures ToBE(0, 4) == [0, 0, 0, 0]
  {
    hide ToBE, FromBE;
    ZeroBytes(4);
  }

  lemma {:induction false} ZeroBytes(k: nat)
    ensures ToBE(0, k) == seq(k, _ => 0)
  {
    var zeros: Bytes := seq(k, _ => 0);
    ZeroBits(zeros);
    AllZeroBits(ToBits(zeros));
    ToBEFromBE(zeros);
  }

  lemma {:induction false} ZeroBits(zeros: Bytes)
    requires forall i :: 0 <= i < |zeros| ==> zeros[i] == 0
    ensures forall i :: 0 <= i < |ToBits(zeros)| ==> !ToBits(zeros)[i]
  {
    if zeros != [] {
      ZeroBits(zeros[1..]);
      ZeroByte(8);
    }
  }

  lemma {:induction false} ZeroByte(n: nat)
    ensures forall i :: 0 <= i < n ==> !BitsOf(0, n)[i]
  {
    if n > 0 {
      ZeroByte(n - 1);
    }
  }

  lemma {:induction false} AllZeroBits(bits: seq<bool>)
    requires forall i :: 0 <= i < |bits| ==> !bits[i]
    ensures ValOf(bits) == 0
  {
    if bits != [] {
      AllZeroBits(bits[..|bits| - 1]);
    }
  }

  /** convert2blob: serialize slot by slot, pack, then patch the checksum over its placeholder. */
  method ConvertToBlob(config: Config, crc: Checksum) returns (r: Result<Bytes>)
    requires WellShapedConfig(config)
    ensures r == ConfigToBlob(config, crc)
  {
    hide EncodeSlot, PackSlot, WellShaped, Serialize, AsciiBytes, Concat, ToBE;
    var slotBlobs: seq<Bytes> := [];
    for i := 1 to SLOTS + 1
      invariant EncodeSlots(config, i - 1) == Ok(slotBlobs)
    {
      if i !in config {
        StopsAt(config, i, SLOTS);
        return Err(KeyError);
      }
      var slotBlob := PackSlotConfig(config[i]);
      if slotBlob.Err? {
        StopsAt(config, i, SLOTS);
        return Err(slotBlob.error);
      }
      slotBlobs := slotBlobs + [slotBlob.value];
    }
    var body := Concat(slotBlobs);
    if |body| >= WORD {
      return Err(StructError);
    }
    var blob := ToBuffer(BlobHead(|body|, 0) + body);
    var checksum := ComputeChecksum(blob[..], crc);
    PatchWord(blob, checksum);
    r := Ok(blob[..]);
    assert r.value == BlobHead(|body|, checksum) + body;
  }

  method PackSlotConfig(slot: SlotConfig) returns (r: Result<Bytes>)
    requires WellShaped(Produce(slot.mlfb), slot.body)
    ensures r == EncodeSlot(slot)
  {
    hide Serialize, PackSlot, AsciiBytes, WellShaped, Produce;
    ProduceKnown(slot.mlfb);
    var data := Serializers.SerializeModule(Produce(slot.mlfb), slot.body);
    if data.Err? {
      return Err(data.error);
    }
    var mlfb := AsciiBytes(slot.mlfb);
    if mlfb.Err? {
      return Err(mlfb.error);
    }
    r := Ok(PackSlot(SlotBlob(SLOT_HEAD + |data.value|, Sized(mlfb.value, 20), 0x01, data.value)));
  }

  /** The first slot that cannot be encoded decides the error. */
  lemma {:induction false} StopsAt(config: Config, i: nat, n: nat)
    requires WellShapedConfig(config) && 1 <= i <= n
    requires EncodeSlots(config, i).Err?
    ensures EncodeSlots(config, n) == Err(EncodeSlots(config, i).error)
  {
    hide EncodeSlot, WellShaped, Produce;
    if i < n {
      StopsAt(config, i, n - 1);
    }
  }

  /** convert2config: the size and checksum tests, then every slot in turn. */
  method ConvertToConfig(blob: Bytes, crc: Checksum) returns (r: Result<Config>)
    ensures r == BlobToConfig(blob, crc)
  {
    hide DecodeSlot, SplitSlots, FromBE;
    if |blob| < HEAD {
      return Err(StructError);
    }
    if FromBE(blob[8..12]) != |blob| - HEAD {
      return Err(ValueError);
    }
    var checksum := ComputeChecksum(blob, crc);
    if FromBE(blob[12..16]) != checksum {
      return Err(ValueError);
    }
    var pieces := SplitSlots(blob[HEAD..]);
    if pieces.Err? {
      return Err(pieces.error);
    }
    var slots: seq<SlotConfig> := [];
    for i := 0 to |pieces.value|
      invariant |slots| == i
      invariant forall j :: 0 <= j < i ==> DecodeSlot(pieces.value[j]) == Ok(slots[j])
    {
      var slot := DecodeSlot(pieces.value[i]);
      if slot.Err? {
        FirstBadSlot(pieces.value, i);
        return Err(slot.error);
      }
      slots := slots + [slot.value];
    }
    DecodeAll(pieces.value);
    assert DecodeSlots(pieces.value).value == slots;
    var config: Config := map[];
    for i := 0 to |slots|
      invariant config == Numbered(slots[..i])
    {
      assert slots[..i + 1][..i] == slots[..i];
      config := config[i + 1 := slots[i]];
    }
    assert slots[..|slots|] == slots;
    r := Ok(config);
  }

  /** The first slot that cannot be decoded decides the error. */
  lemma {:induction false} FirstBadSlot(ss: seq<SlotBlob>, i: nat)
    requires i < |ss| && DecodeSlot(ss[i]).Err?
    requires forall j :: 0 <= j < i ==> DecodeSlot(ss[j]).Ok?
    ensures DecodeSlots(ss) == Err(DecodeSlot(ss[i]).error)
  {
    hide DecodeSlot;
    if i > 0 {
      FirstBadSlot(ss[1..], i - 1);
    }
  }

  // ---------- semantic validation ----------

  predicate Occupied(config: Config, i: nat)
    requires i in config
  {
    config[i].mlfb != NO_MODULE
  }

  /** Slots are filled from the first one on, without holes. */
  ghost predicate NoHoles(config: Config) {
    forall i, j :: 1 <= i < j <= SLOTS && i in config && j in config && Occupied(config, j) ==> Occupied(config, i)
  }

  function AiChannels(mlfb: string): nat {
    if mlfb == SM1231_8AI then 8 else if mlfb == SM1231_4AI then 4 else 0
  }

  /** Channels 2j and 2j+1 of an analog input module measure the same quantity. */
  ghost predicate PairConsistent(slot: SlotConfig)
    requires AiChannels(slot.mlfb) > 0 ==> slot.body.AiBody? && |slot.body.ai| == AiChannels(slot.mlfb)
  {
    AiChannels(slot.mlfb) > 0 ==>
      forall j :: 0 <= j < |slot.body.ai| && j % 2 == 0 ==> slot.body.ai[j].kind == slot.body.ai[j + 1].kind
  }

  lemma AiShape(slot: SlotConfig)
    requires WellShaped(Produce(slot.mlfb), slot.body)
    ensures AiChannels(slot.mlfb) > 0 ==> slot.body.AiBody? && |slot.body.ai| == AiChannels(slot.mlfb)
  {
  }

  ghost predicate SemanticallyValid(config: Config)
    requires WellShapedConfig(config)
  {
    && (forall i :: 1 <= i <= SLOTS ==> i in config)
    && NoHoles(config)
    && forall i :: 1 <= i <= SLOTS ==> PairsAt(config, i)
  }

  ghost predicate PairsAt(config: Config, i: nat)
    requires WellShapedConfig(config) && i in config
  {
    AiShape(config[i]);
    PairConsistent(config[i])
  }

  /** validate_semantic accepts exactly the complete, hole-free, pair-consistent configurations. */
  method ValidateSemantic(config: Config) returns (r: Result<()>)
    requires WellShapedConfig(config)
    ensures r.Ok? <==> SemanticallyValid(config)
    ensures r == Err(ConfigError)
            ==> !NoHoles(config) || exists i :: 1 <= i <= SLOTS && i in config && !PairsAt(config, i)
    ensures !NoHoles(config) ==> r == Err(ConfigError)
    ensures r.Err? && r.error != ConfigError ==> r.error == KeyError && exists i :: 1 <= i <= SLOTS && i !in config
  {
    hide WellShaped, Produce;
    var lastMod := 0;
    for i := 1 to SLOTS + 1
      invariant lastMod < i
      invariant lastMod > 0 ==> lastMod in config && !Occupied(config, lastMod)
      invariant forall k :: 1 <= k < i && k in config && !Occupied(config, k) ==> lastMod >= k
      invariant forall k, j ::
            1 <= k < j < i && k in config && j in config && Occupied(config, j) ==> Occupied(config, k)
    {
      if i in config {
        if lastMod > 0 && config[i].mlfb != NO_MODULE {
          assert !NoHoles(config);
          return Err(ConfigError);
        } else if config[i].mlfb != NO_MODULE {
        } else {
          lastMod := i;
        }
      }
    }
    for i := 1 to SLOTS + 1
      invariant forall k :: 1 <= k < i ==> k in config && PairsAt(config, k)
    {
      if i !in config {
        return Err(KeyError);
      }
      AiShape(config[i]);
      var channelNum := AiChannels(config[i].mlfb);
      var j := 0;
      while j < channelNum
        invariant j % 2 == 0 && j <= channelNum
        invariant forall k :: 0 <= k < j && k % 2 == 0 ==> config[i].body.ai[k].kind == config[i].body.ai[k + 1].kind
      {
        if config[i].body.ai[j].kind != config[i].body.ai[j + 1].kind {
          assert !PairsAt(config, i);
          return Err(ConfigError);
        }
        j := j + 2;
      }
    }
    r := Ok(());
  }
}
