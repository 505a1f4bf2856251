/** The chain of slot blobs inside a configuration blob: every slot starts with its own length. */
module Framing {
  import opened Common
  import opened Bits

  /** One entry of the expanded slot list. */
  datatype SlotBlob = SlotBlob(length: nat, mlfb: Bytes, version: nat, data: Bytes)

  const SLOT_HEAD := 28
  const WORD := 0x1_0000_0000

  predicate ValidSlot(s: SlotBlob) {
    s.length == SLOT_HEAD + |s.data| && s.length < WORD && |s.mlfb| == 20 && s.version < WORD
  }

  predicate ValidSlots(ss: seq<SlotBlob>) {
    forall i :: 0 <= i < |ss| ==> ValidSlot(ss[i])
  }

  /** struct.pack('> I 20s I ..s'). */
  function PackSlot(s: SlotBlob): (bytes: Bytes)
    ensures ValidSlot(s) ==> |bytes| == s.length
  {
    ToBE(s.length, 4) + s.mlfb + ToBE(s.version, 4) + s.data
  }

  function Join(ss: seq<SlotBlob>): Bytes {
    if ss == [] then [] else PackSlot(ss[0]) + Join(ss[1..])
  }

  /** _get_next_slot_blob without its end marker. A negative count in a struct format is an error. */
  function SplitSlots(blob: Bytes): Result<seq<SlotBlob>> {
    if |blob| == 0 then Ok([])
    else if |blob| < SLOT_HEAD then Err(ValueError)
    else
      var length := FromBE(blob[..4]);
      if length < SLOT_HEAD || length > |blob| then Err(StructError)
      else
        var rest :- SplitSlots(blob[length..]);
        Ok([SlotBlob(length, blob[4..24], FromBE(blob[24..28]), blob[28..length])] + rest)
  }

  /** Cut points that tile the blob: each piece has at least a head and carries its own length. */
  ghost predicate Tiles(blob: Bytes, cuts: seq<nat>) {
    && |cuts| > 0 && cuts[0] == 0 && cuts[|cuts| - 1] == |blob|
    && forall i :: 0 <= i < |cuts| - 1 ==> TileAt(blob, cuts[i], cuts[i + 1])
  }

  predicate TileAt(blob: Bytes, from: nat, to: nat) {
    from + SLOT_HEAD <= to <= |blob| && FromBE(blob[from..from + 4]) == to - from
  }

  lemma WordRoundTrip(v: nat)
    requires v < WORD
    ensures FromBE(ToBE(v, 4)) == v
  {
    Pow2Values();
    FromBEToBE(v, 4);
  }

  lemma ReadWord(bytes: Bytes)
    requires |bytes| == 4
    ensures FromBE(bytes) < WORD && ToBE(FromBE(bytes), 4) == bytes
  {
    Pow2Values();
    ToBEFromBE(bytes);
  }

  lemma SlotPlaces(s: SlotBlob, rest: Bytes)
    requires ValidSlot(s)
    ensures var b := PackSlot(s) + rest;
      |b| >= s.length && FromBE(b[..4]) == s.length && b[4..24] == s.mlfb
      && FromBE(b[24..28]) == s.version && b[28..s.length] == s.data && b[s.length..] == rest
  {
    hide ToBE, FromBE;
    WordRoundTrip(s.length);
    WordRoundTrip(s.version);
    var b := PackSlot(s) + rest;
    assert b[..4] == ToBE(s.length, 4) && b[24..28] == ToBE(s.version, 4);
  }

  /** Every valid slot list is read back from its bytes. */
  lemma {:induction false} SplitOfJoin(ss: seq<SlotBlob>)
    requires ValidSlots(ss)
    ensures SplitSlots(Join(ss)) == Ok(ss)
  {
    hide FromBE, PackSlot;
    if ss != [] {
      assert ValidSlot(ss[0]);
      SplitOfJoin(ss[1..]);
      SlotPlaces(ss[0], Join(ss[1..]));
      var blob := Join(ss);
      assert SlotBlob(ss[0].length, blob[4..24], FromBE(blob[24..28]), blob[28..ss[0].length]) == ss[0];
      assert [ss[0]] + ss[1..] == ss;
    }
  }

  /** The first piece of an accepted blob, written out again, is the blob's first bytes. */
  lemma RepackFirst(blob: Bytes)
    requires |blob| >= SLOT_HEAD && SLOT_HEAD <= FromBE(blob[..4]) <= |blob|
    ensures var s := SlotBlob(FromBE(blob[..4]), blob[4..24], FromBE(blob[24..28]), blob[28..FromBE(blob[..4])]);
      ValidSlot(s) && PackSlot(s) == blob[..FromBE(blob[..4])]
  {
    hide FromBE, ToBE;
    ReadWord(blob[..4]);
    ReadWord(blob[24..28]);
    assert blob[..FromBE(blob[..4])] == blob[..4] + blob[4..24] + blob[24..28] + blob[28..FromBE(blob[..4])];
  }

  /** The pieces of an accepted blob are valid and re-concatenate to it. */
  lemma {:induction false} JoinOfSplit(blob: Bytes)
    requires SplitSlots(blob).Ok?
    ensures ValidSlots(SplitSlots(blob).value)
    ensures Join(SplitSlots(blob).value) == blob
    decreases |blob|
  {
    hide FromBE, PackSlot, ValidSlot;
    if blob != [] {
      var length := FromBE(blob[..4]);
      JoinOfSplit(blob[length..]);
      RepackFirst(blob);
      var ss := SplitSlots(blob).value;
      assert ss[1..] == SplitSlots(blob[length..]).value;
      assert blob == blob[..length] + blob[length..];
    }
  }

  /** Two valid slot lists with the same bytes are the same list. */
  lemma JoinInjective(ss: seq<SlotBlob>, tt: seq<SlotBlob>)
    requires ValidSlots(ss) && ValidSlots(tt) && Join(ss) == Join(tt)
    ensures ss == tt
  {
    SplitOfJoin(ss);
    SplitOfJoin(tt);
  }

  /** Splitting succeeds exactly when the length fields tile the blob. */
  lemma SplitSucceedsIff(blob: Bytes)
    ensures SplitSlots(blob).Ok? <==> exists cuts: seq<nat> :: Tiles(blob, cuts)
  {
    if SplitSlots(blob).Ok? {
      var cuts := CutsOf(blob);
      assert Tiles(blob, cuts);
    }
    if cuts: seq<nat> :| Tiles(blob, cuts) {
      TiledSplits(blob, cuts);
    }
  }

  lemma {:induction false} CutsOf(blob: Bytes) returns (cuts: seq<nat>)
    requires SplitSlots(blob).Ok?
    ensures Tiles(blob, cuts)
    decreases |blob|
  {
    hide FromBE;
    if blob == [] {
      cuts := [0];
    } else {
      var length := FromBE(blob[..4]);
      var tail := CutsOf(blob[length..]);
      cuts := [0] + seq(|tail|, i requires 0 <= i < |tail| => tail[i] + length);
      forall i | 0 <= i < |cuts| - 1
        ensures TileAt(blob, cuts[i], cuts[i + 1])
      {
        if i > 0 {
          assert TileAt(blob[length..], tail[i - 1], tail[i]);
          assert blob[length..][tail[i - 1]..tail[i - 1] + 4] == blob[cuts[i]..cuts[i] + 4];
        }
      }
    }
  }

  lemma {:induction false} TiledSplits(blob: Bytes, cuts: seq<nat>)
    requires Tiles(blob, cuts)
    ensures SplitSlots(blob).Ok?
    decreases |cuts|
  {
    hide FromBE;
    if |cuts| > 1 {
      assert TileAt(blob, cuts[0], cuts[1]);
      var length := cuts[1];
      var tail := seq(|cuts| - 1, i requires 0 <= i < |cuts| - 1 => Shifted(blob, cuts, i));
      forall i | 0 <= i < |tail| - 1
        ensures TileAt(blob[length..], tail[i], tail[i + 1])
      {
        CutsGrow(blob, cuts, i + 1);
        CutsGrow(blob, cuts, i + 2);
        assert TileAt(blob, cuts[i + 1], cuts[i + 2]);
        assert blob[length..][tail[i]..tail[i] + 4] == blob[cuts[i + 1]..cuts[i + 1] + 4];
      }
      CutsGrow(blob, cuts, |cuts| - 1);
      TiledSplits(blob[length..], tail);
    }
  }

  function Shifted(blob: Bytes, cuts: seq<nat>, i: nat): nat
    requires i + 1 < |cuts|
  {
    if cuts[i + 1] >= cuts[1] then cuts[i + 1] - cuts[1] else 0
  }

  lemma {:induction false} CutsGrow(blob: Bytes, cuts: seq<nat>, i: nat)
    requires Tiles(blob, cuts) && 1 <= i < |cuts|
    ensures cuts[i] >= cuts[1]
  {
    if i > 1 {
      assert TileAt(blob, cuts[i - 1], cuts[i]);
      CutsGrow(blob, cuts, i - 1);
    }
  }
}
