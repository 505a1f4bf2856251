/** The serial controller's configuration block: editing its mode and timing bytes, reporting
    them, and committing the block to the chip. */
module Cp2102n {
  import opened Common
  import opened Bits
  import opened Fletcher

  const LENGTH := 0x02a6
  const BODY := LENGTH - 2

  const RS485_CONTROL := 600
  const RS485_BIT := 4
  const LOGIC_CONTROL := 601
  const LOGIC_BIT := 0
  const RESET_LATCH := 587
  const LATCH_BIT := 5
  const SETUP := 669
  const HOLD := 671

  type Block = b: Bytes | |b| == LENGTH witness seq(LENGTH, _ => 0)

  // ---------- bits of a byte ----------

  predicate Bit(b: byte, k: nat)
    requires k < 8
  {
    BitsOf(b, 8)[7 - k]
  }

  function WithBit(b: byte, k: nat, v: bool): byte
    requires k < 8
  {
    ByteOf(BitsOf(b, 8)[7 - k := v])
  }

  /** Writing one bit keeps the other seven. */
  lemma WithBitIs(b: byte, k: nat, v: bool)
    requires k < 8
    ensures forall j: nat :: j < 8 ==> Bit(WithBit(b, k, v), j) == if j == k then v else Bit(b, j)
  {
    var bits := BitsOf(b, 8)[7 - k := v];
    BitsOfValOf(bits);
  }

  function Change(from: bool, to: bool, weight: int): int {
    if from == to then 0 else if to then weight else -weight
  }

  /** Setting bit k adds its weight, clearing it subtracts it, and otherwise nothing changes. */
  lemma WithBitValue(b: byte, k: nat, v: bool)
    requires k < 8
    ensures WithBit(b, k, v) == b as int + Change(Bit(b, k), v, Pow2(k))
  {
    Pow2Values();
    ValOfBitsOf(b, 8);
    ValOfUpdate(BitsOf(b, 8), 7 - k, v);
  }

  lemma {:induction false} ValOfUpdate(bits: seq<bool>, i: nat, v: bool)
    requires i < |bits|
    ensures ValOf(bits[i := v]) == ValOf(bits) as int + Change(bits[i], v, Pow2(|bits| - 1 - i))
  {
    var n := |bits| - 1;
    if i == n {
      assert bits[i := v][..n] == bits[..n];
    } else {
      ValOfUpdate(bits[..n], i, v);
      assert bits[i := v][..n] == bits[..n][i := v];
    }
  }

  // ---------- what a block means ----------

  function Word(b: Block, i: nat): nat
    requires i + 1 < LENGTH
  {
    b[i] as int * 256 + b[i + 1]
  }

  predicate BitAt(b: Block, i: nat, k: nat)
    requires i < LENGTH && k < 8
  {
    Bit(b[i], k)
  }

  datatype Report = Report(mode: string, logic: string, setup: nat, hold: nat)

  /** print_cfg. */
  function ReportOf(b: Block): Report {
    var rs485 := BitAt(b, RS485_CONTROL, RS485_BIT);
    var latch := BitAt(b, RESET_LATCH, LATCH_BIT);
    Report(
      if rs485 then "rs485" else if latch then "rs422" else "rs232",
      if rs485 then (if BitAt(b, LOGIC_CONTROL, LOGIC_BIT) then "high" else "low") else if latch then "high" else "low",
      Word(b, SETUP), Word(b, HOLD))
  }

  function WriteBit(b: Block, i: nat, k: nat, v: bool): Block
    requires i < LENGTH && k < 8
  {
    b[i := WithBit(b[i], k, v)]
  }

  function WriteWord(b: Block, i: nat, t: nat): Block
    requires i + 1 < LENGTH
  {
    b[i := (t / 256) % 256][i + 1 := t % 256]
  }

  function Lower(c: char): char {
    if 'A' <= c <= 'Z' then (c as int + 32) as char else c
  }

  /** 0 == strcasecmp(a, b). */
  predicate SameText(a: string, b: string) {
    |a| == |b| && forall i :: 0 <= i < |a| ==> Lower(a[i]) == Lower(b[i])
  }

  function Switched(b: Block, mode: string): Block {
    if SameText(mode, "rs232") then
      WriteBit(WriteBit(b, RS485_CONTROL, RS485_BIT, false), RESET_LATCH, LATCH_BIT, false)
    else if SameText(mode, "rs422") then
      WriteBit(WriteBit(b, RS485_CONTROL, RS485_BIT, false), RESET_LATCH, LATCH_BIT, true)
    else if SameText(mode, "rs485") then
      WriteBit(WriteBit(b, RS485_CONTROL, RS485_BIT, true), LOGIC_CONTROL, LOGIC_BIT, true)
    else b
  }

  /** Missing times are replaced by the platform's defaults, both at once. */
  function Preprocessed(b: Block, setup: nat, hold: nat): Block {
    if Word(b, SETUP) == 0 || Word(b, HOLD) == 0 then WriteWord(WriteWord(b, SETUP, setup), HOLD, hold) else b
  }

  function BodyOf(b: Block): Bytes {
    b[..BODY]
  }

  /** The block with the checksum of its own body in its last two bytes. */
  function Stamped(b: Block): (s: Block)
    ensures BodyOf(s) == BodyOf(b) && Word(s, BODY) == Checksum(BodyOf(b))
  {
    b[BODY := Checksum(BodyOf(b)) / 256][BODY + 1 := Checksum(BodyOf(b)) % 256]
  }

  // ---------- the controller ----------

  class Controller {
    var deviceConf: array<byte>
    var confCheckSum: Word16
    /** The block stored in the chip. */
    var chip: Bytes

    ghost predicate Valid()
      reads this, deviceConf
    {
      deviceConf.Length == LENGTH && |chip| == LENGTH
    }

    function Conf(): Block
      reads this, deviceConf
      requires Valid()
    {
      deviceConf[..]
    }

    /** cp2102_ops_init: read the block and remember the checksum of its body. */
    constructor (stored: Block)
      ensures Valid() && fresh(deviceConf)
      ensures chip == stored && Conf() == stored && confCheckSum == Checksum(BodyOf(stored))
    {
      var conf := new byte[LENGTH](i requires 0 <= i < LENGTH => stored[i]);
      deviceConf := conf;
      chip := stored;
      new;
      assert deviceConf[..] == stored;
      confCheckSum := Fletcher16(stored[..BODY]);
    }

    method SetBit(i: nat, k: nat, v: bool)
      requires Valid() && i < LENGTH && k < 8
      modifies deviceConf
      ensures Valid() && Conf() == WriteBit(old(Conf()), i, k, v)
    {
      deviceConf[i] := WithBit(deviceConf[i], k, v);
    }

    method SetWord(i: nat, timeVal: nat)
      requires Valid() && i + 1 < LENGTH
      modifies deviceConf
      ensures Valid() && Conf() == WriteWord(old(Conf()), i, timeVal)
    {
      deviceConf[i] := (timeVal / 256) % 256;
      deviceConf[i + 1] := timeVal % 256;
    }

    /** cp2102n_switch_mode; an unknown mode changes nothing. */
    method SwitchMode(mode: string)
      requires Valid()
      modifies deviceConf
      ensures Valid() && Conf() == Switched(old(Conf()), mode)
    {
      hide WithBit, SameText;
      if SameText(mode, "rs232") {
        SetBit(RS485_CONTROL, RS485_BIT, false);
        SetBit(RESET_LATCH, LATCH_BIT, false);
      } else if SameText(mode, "rs422") {
        SetBit(RS485_CONTROL, RS485_BIT, false);
        SetBit(RESET_LATCH, LATCH_BIT, true);
      } else if SameText(mode, "rs485") {
        SetBit(RS485_CONTROL, RS485_BIT, true);
        SetBit(LOGIC_CONTROL, LOGIC_BIT, true);
      }
    }

    /** The entry points narrow the time to 8 bits before the setters see it. */
    method SetSetupTime(time: nat)
      requires Valid()
      modifies deviceConf
      ensures Valid() && Conf() == WriteWord(old(Conf()), SETUP, time % 256)
    {
      SetWord(SETUP, time % 256);
    }

    method SetHoldTime(time: nat)
      requires Valid()
      modifies deviceConf
      ensures Valid() && Conf() == WriteWord(old(Conf()), HOLD, time % 256)
    {
      SetWord(HOLD, time % 256);
    }

    method PreProcess(setup: nat, hold: nat)
      requires Valid()
      modifies deviceConf
      ensures Valid() && Conf() == Preprocessed(old(Conf()), setup, hold)
    {
      if Word(deviceConf[..], SETUP) == 0 || Word(deviceConf[..], HOLD) == 0 {
        SetWord(SETUP, setup);
        SetWord(HOLD, hold);
      }
    }

    /** write_config_to_device. The block is sent only if the checksum of its body is not the one
        remembered at the start; accepted says whether the transfer takes the whole block, and
        stored is what the chip reads back afterwards. */
    method Commit(accepted: bool, stored: Block) returns (success: bool)
      requires Valid()
      modifies this`chip, deviceConf
      ensures Valid()
      ensures Checksum(BodyOf(old(Conf()))) == old(confCheckSum)
          ==> success && chip == old(chip) && Conf() == old(Conf())
      ensures Checksum(BodyOf(old(Conf()))) != old(confCheckSum) && !accepted
          ==> !success && chip == old(chip) && Conf() == Stamped(old(Conf()))
      ensures Checksum(BodyOf(old(Conf()))) != old(confCheckSum) && accepted
          ==> chip == stored && Conf() == stored && (success <==> stored == Stamped(old(Conf())))
    {
      hide Checksum;
      var checkSumNew := Fletcher16(deviceConf[..BODY]);
      assert deviceConf[..BODY] == BodyOf(Conf());
      if confCheckSum == checkSumNew {
        return true;
      }
      deviceConf[BODY] := (checkSumNew / 256) % 256;
      deviceConf[BODY + 1] := checkSumNew % 256;
      var sent := deviceConf[..];
      if !accepted {
        return false;
      }
      chip := stored;
      for i := 0 to LENGTH
        invariant Valid() && chip == stored
        invariant forall j :: 0 <= j < i ==> deviceConf[j] == stored[j]
      {
        deviceConf[i] := stored[i];
      }
      assert deviceConf[..] == stored;
      success := sent == deviceConf[..];
    }
  }

  // ---------- what the edits mean ----------

  const MODE_BITS: set<(nat, nat)> :=
    {(RS485_CONTROL, RS485_BIT), (LOGIC_CONTROL, LOGIC_BIT), (RESET_LATCH, LATCH_BIT)}

  lemma WriteBitIs(b: Block, i: nat, k: nat, v: bool)
    requires i < LENGTH && k < 8
    ensures forall j: nat, m: nat :: j < LENGTH && m < 8 ==>
      BitAt(WriteBit(b, i, k, v), j, m) == if (j, m) == (i, k) then v else BitAt(b, j, m)
    ensures Sum(BodyOf(WriteBit(b, i, k, v))) 
         == Sum(BodyOf(b)) as int + if i < BODY then Change(BitAt(b, i, k), v, Pow2(k)) else 0
  {
    WithBitIs(b[i], k, v);
    WithBitValue(b[i], k, v);
    if i < BODY {
      assert BodyOf(WriteBit(b, i, k, v)) == BodyOf(b)[i := WithBit(b[i], k, v)];
      SumUpdate(BodyOf(b), i, WithBit(b[i], k, v));
    } else {
      assert BodyOf(WriteBit(b, i, k, v)) == BodyOf(b);
    }
  }

  lemma TwoBits(b: Block, i: nat, k: nat, v: bool, j: nat, m: nat, w: bool)
    requires i < BODY && k < 8 && j < BODY && m < 8 && i != j
    ensures var c := WriteBit(WriteBit(b, i, k, v), j, m, w);
      && BitAt(c, i, k) == v && BitAt(c, j, m) == w
      && (forall x: nat, y: nat ::
            x < LENGTH && y < 8 && (x, y) != (i, k) && (x, y) != (j, m) ==> BitAt(c, x, y) == BitAt(b, x, y))
      && (forall x: nat :: x < LENGTH && x != i && x != j ==> c[x] == b[x])
      && Sum(BodyOf(c)) == Sum(BodyOf(b)) as int + Change(BitAt(b, i, k), v, Pow2(k))
           + Change(BitAt(b, j, m), w, Pow2(m))
      && (BitAt(b, i, k) == v && BitAt(b, j, m) == w ==> c == b)
  {
    hide Sum, BitAt, Change;
    WriteBitIs(b, i, k, v);
    WriteBitIs(WriteBit(b, i, k, v), j, m, w);
    SameBit(b, i, k, v);
    SameBit(WriteBit(b, i, k, v), j, m, w);
  }

  lemma SameBit(b: Block, i: nat, k: nat, v: bool)
    requires i < LENGTH && k < 8
    ensures BitAt(b, i, k) == v ==> WriteBit(b, i, k, v) == b
  {
    WithBitValue(b[i], k, v);
  }

  predicate KnownMode(mode: string) {
    SameText(mode, "rs232") || SameText(mode, "rs422") || SameText(mode, "rs485")
  }

  lemma SwitchBits(b: Block, mode: string)
    ensures KnownMode(mode) ==> SameText(mode, ReportOf(Switched(b, mode)).mode)
    ensures KnownMode(mode) ==> ReportOf(Switched(b, mode)).logic == if SameText(mode, "rs232") then "low" else "high"
    ensures forall i: nat, k: nat ::
          i < LENGTH && k < 8 && (i, k) !in MODE_BITS ==> BitAt(Switched(b, mode), i, k) == BitAt(b, i, k)
    ensures forall i: nat ::
          i < LENGTH && i !in {RS485_CONTROL, LOGIC_CONTROL, RESET_LATCH} ==> Switched(b, mode)[i] == b[i]
    ensures Switched(b, mode) != b
            ==> Sum(BodyOf(Switched(b, mode))) as int - Sum(BodyOf(b)) in {-48, -32, -16, 1, 16, 17, 32}
  {
    hide BitAt, WriteBit, SameText, Sum;
    Pow2Values();
    Pow2Five();
    TwoBits(b, RS485_CONTROL, RS485_BIT, false, RESET_LATCH, LATCH_BIT, false);
    TwoBits(b, RS485_CONTROL, RS485_BIT, false, RESET_LATCH, LATCH_BIT, true);
    TwoBits(b, RS485_CONTROL, RS485_BIT, true, LOGIC_CONTROL, LOGIC_BIT, true);
  }

  lemma Pow2Five()
    ensures Pow2(0) == 1 && Pow2(5) == 32
  {
  }

  /** After switching, the report names the mode asked for, with its fixed logic level; no other
      bit of the block has changed, and the reported times are the old ones. An unknown mode
      changes nothing. */
  lemma SwitchReports(b: Block, mode: string)
    ensures KnownMode(mode) ==> SameText(mode, ReportOf(Switched(b, mode)).mode)
    ensures KnownMode(mode) ==> ReportOf(Switched(b, mode)).logic == if SameText(mode, "rs232") then "low" else "high"
    ensures forall i: nat, k: nat ::
          i < LENGTH && k < 8 && (i, k) !in MODE_BITS ==> BitAt(Switched(b, mode), i, k) == BitAt(b, i, k)
    ensures ReportOf(Switched(b, mode)).setup == ReportOf(b).setup
    ensures ReportOf(Switched(b, mode)).hold == ReportOf(b).hold
    ensures !KnownMode(mode) ==> Switched(b, mode) == b
  {
    hide BitAt, WriteBit, SameText, Sum;
    SwitchBits(b, mode);
  }

  /** A mode switch that changes the block at all changes its checksum, so the block is sent. */
  lemma SwitchIsSent(b: Block, mode: string)
    ensures Switched(b, mode) == b <==> Checksum(BodyOf(Switched(b, mode))) == Checksum(BodyOf(b))
  {
    hide Sum, Switched, Checksum, WeightedSum;
    SwitchBits(b, mode);
    ChecksumEqual(BodyOf(Switched(b, mode)), BodyOf(b));
  }

  /** A time is reported back exactly when it fits 8 bits: the entry points narrow it. */
  lemma SetupTimeReported(b: Block, time: nat)
    ensures ReportOf(WriteWord(b, SETUP, time % 256)).setup == time <==> time < 256
    ensures ReportOf(WriteWord(b, HOLD, time % 256)).hold == time <==> time < 256
    ensures ReportOf(WriteWord(b, SETUP, time % 256)).hold == ReportOf(b).hold
    ensures ReportOf(WriteWord(b, HOLD, time % 256)).setup == ReportOf(b).setup
    ensures ReportOf(WriteWord(b, SETUP, time % 256)).mode == ReportOf(b).mode
  {
    assert time % 256 / 256 == 0;
  }

  /** A new time goes unnoticed by the checksum exactly when each of its two bytes stays, or
      swaps 0x00 and 0xff. */
  lemma TimeIsSent(b: Block, i: nat, time: nat)
    requires i in {SETUP, HOLD}
    ensures Checksum(BodyOf(WriteWord(b, i, time))) == Checksum(BodyOf(b))
       <==> Unseen(b[i], time / 256 % 256) && Unseen(b[i + 1], time % 256)
  {
    hide Sum, WeightedSum, Checksum, Cong;
    var body := BodyOf(b);
    var hi: byte, lo: byte := time / 256 % 256, time % 256;
    var once: Bytes := body[i := hi];
    var twice: Bytes := once[i + 1 := lo];
    assert BodyOf(WriteWord(b, i, time)) == twice;
    SumUpdate(body, i, hi);
    SumUpdate(once, i + 1, lo);
    ChecksumEqual(BodyOf(WriteWord(b, i, time)), body);
    var d, e, w := hi - b[i], lo - b[i + 1], BODY - i - 1;
    CongShift(Sum(body), d + e);
    CongShift(WeightedSum(body), (w + 1) * d + w * e);
    assert (w + 1) * d + w * e == d + w * (d + e);
    UnseenIff(b[i], hi);
    UnseenIff(b[i + 1], lo);
    TwoDeltas(w, d, e);
  }

  predicate Unseen(x: byte, y: byte) {
    x == y || {x, y} == {0x00, 0xff}
  }

  lemma UnseenIff(x: byte, y: byte)
    ensures Unseen(x, y) <==> (y - x) % 255 == 0
  {
    var d := y - x;
    assert d % 255 == 0 <==> d == 0 || d == 255 || d == -255;
    assert (d == 255 || d == -255) <==> {x, y} == {0x00, 0xff};
  }

  lemma TwoDeltas(w: nat, d: int, e: int)
    ensures (d + e) % 255 == 0 && (d + w * (d + e)) % 255 == 0 <==> d % 255 == 0 && e % 255 == 0
  {
    CongShift(e, d);
    if (d + e) % 255 == 0 {
      MultipleOf255(w, d + e);
      CongShift(d, w * (d + e));
    }
  }

  /** The narrowed time 256 over the time 0x00ff changes the block without changing its checksum:
      the chip keeps the old time. */
  lemma LostTime(b: Block)
    requires Word(b, SETUP) == 0x00ff
    ensures ReportOf(WriteWord(b, SETUP, 256 % 256)).setup == 0
    ensures Checksum(BodyOf(WriteWord(b, SETUP, 256 % 256))) == Checksum(BodyOf(b))
  {
    TimeIsSent(b, SETUP, 0);
  }

  // ---------- a whole session ----------

  const DEFAULT_TIME := 5

  /** The block a call of the tool asks for: defaults for missing times, then the mode, the hold time
      and the setup time that were given; a time of zero was not given. */
  function Edited(b: Block, mode: Option<string>, setup: nat, hold: nat): Block {
    var c := Preprocessed(b, DEFAULT_TIME, DEFAULT_TIME);
    var d := if mode.Some? then Switched(c, mode.value) else c;
    var e := if hold != 0 then WriteWord(d, HOLD, hold % 256) else d;
    if setup != 0 then WriteWord(e, SETUP, setup % 256) else e
  }

  /** What the chip holds after a call, if it stores what it is sent: an edit the checksum does not
      see is not sent. */
  function Committed(b: Block, mode: Option<string>, setup: nat, hold: nat): Block {
    var edited := Edited(b, mode, setup, hold);
    if Checksum(BodyOf(edited)) == Checksum(BodyOf(b)) then b else Stamped(edited)
  }

  /** One call of the tool, with a chip that stores what it is sent. */
  method Session(stored: Block, mode: Option<string>, setup: nat, hold: nat) returns (chip: Block)
    ensures chip == Committed(stored, mode, setup, hold)
  {
    hide Checksum, Switched, Preprocessed, Stamped;
    var controller := new Controller(stored);
    controller.PreProcess(DEFAULT_TIME, DEFAULT_TIME);
    if mode.Some? {
      controller.SwitchMode(mode.value);
    }
    if hold != 0 {
      controller.SetHoldTime(hold);
    }
    if setup != 0 {
      controller.SetSetupTime(setup);
    }
    var success := controller.Commit(true, Stamped(controller.Conf()));
    chip := controller.chip;
  }

  /** The bytes a call edits, in order. */
  const EDITS: seq<nat> := [RESET_LATCH, RS485_CONTROL, LOGIC_CONTROL, SETUP, SETUP + 1, HOLD, HOLD + 1]

  /** The edited block reports the mode and the narrowed times asked for, and differs from the stored
      one in no other byte. */
  lemma SessionReports(b: Block, mode: Option<string>, setup: nat, hold: nat)
    ensures mode.Some? && KnownMode(mode.value) ==> SameText(mode.value, ReportOf(Edited(b, mode, setup, hold)).mode)
    ensures hold != 0 ==> ReportOf(Edited(b, mode, setup, hold)).hold == hold % 256
    ensures setup != 0 ==> ReportOf(Edited(b, mode, setup, hold)).setup == setup % 256
    ensures forall i: nat :: i < LENGTH && i !in EDITS ==> Edited(b, mode, setup, hold)[i] == b[i]
  {
    hide BitAt, Switched, Sum, SameText;
    var c := Preprocessed(b, DEFAULT_TIME, DEFAULT_TIME);
    if mode.Some? {
      SwitchBits(c, mode.value);
    }
    var d := if mode.Some? then Switched(c, mode.value) else c;
    ModeBitsApart(d, Edited(b, mode, setup, hold));
  }

  /** Missing times: if either time is reported as zero both are replaced, and otherwise nothing is. */
  lemma PreprocessedReports(b: Block, setup: nat, hold: nat)
    ensures var r := ReportOf(b);
      if r.setup == 0 || r.hold == 0
      then ReportOf(Preprocessed(b, setup, hold)) == r.(setup := setup % 0x1_0000, hold := hold % 0x1_0000)
      else Preprocessed(b, setup, hold) == b
  {
    hide BitAt;
    if Word(b, SETUP) == 0 || Word(b, HOLD) == 0 {
      var c := WriteWord(WriteWord(b, SETUP, setup), HOLD, hold);
      WordWritten(b, SETUP, setup);
      WordWritten(WriteWord(b, SETUP, setup), HOLD, hold);
      SameModeBytes(b, c);
    }
  }

  lemma WordWritten(b: Block, i: nat, t: nat)
    requires i + 1 < LENGTH
    ensures Word(WriteWord(b, i, t), i) == t % 0x1_0000
  {
    assert t / 256 % 256 * 256 + t % 256 == t % 0x1_0000;
  }

  lemma SameModeBytes(b: Block, c: Block)
    requires c[RS485_CONTROL] == b[RS485_CONTROL] && c[LOGIC_CONTROL] == b[LOGIC_CONTROL]
    requires c[RESET_LATCH] == b[RESET_LATCH]
    ensures ReportOf(c).mode == ReportOf(b).mode && ReportOf(c).logic == ReportOf(b).logic
  {
  }

  /** The time a call leaves: the narrowed one asked for; without one, 5 if either stored time is zero
      and the stored one otherwise. */
  function TimeAfter(asked: nat, stored: nat, missing: bool): nat {
    if asked != 0 then asked % 256 else if missing then 5 else stored
  }

  /** The whole report of an edited block. */
  lemma EditedReports(b: Block, mode: Option<string>, setup: nat, hold: nat)
    ensures var r, e := ReportOf(b), ReportOf(Edited(b, mode, setup, hold));
      var missing := r.setup == 0 || r.hold == 0;
      var known := mode.Some? && KnownMode(mode.value);
      && e.setup == TimeAfter(setup, r.setup, missing) && e.hold == TimeAfter(hold, r.hold, missing)
      && (if known then SameText(mode.value, e.mode) else e.mode == r.mode)
      && e.logic == (if known then (if SameText(mode.value, "rs232") then "low" else "high") else r.logic)
  {
    hide BitAt, Switched, SameText, WriteWord, Preprocessed, KnownMode;
    PreprocessedReports(b, DEFAULT_TIME, DEFAULT_TIME);
    var c := Preprocessed(b, DEFAULT_TIME, DEFAULT_TIME);
    if mode.Some? {
      SwitchReports(c, mode.value);
    }
    var d := if mode.Some? then Switched(c, mode.value) else c;
    var e := if hold != 0 then WriteWord(d, HOLD, hold % 256) else d;
    TimeWritten(d, HOLD, hold % 256);
    TimeWritten(e, SETUP, setup % 256);
  }

  lemma TimeWritten(b: Block, i: nat, t: nat)
    requires i in {SETUP, HOLD} && t < 256
    ensures var w := WriteWord(b, i, t);
      ReportOf(w) == if i == SETUP then ReportOf(b).(setup := t) else ReportOf(b).(hold := t)
  {
    hide BitAt;
    SameModeBytes(b, WriteWord(b, i, t));
  }

  lemma {:induction false} BitOfNumber(v: nat, n: nat, k: nat)
    requires k < n
    ensures BitsOf(v, n)[n - 1 - k] == (Halved(v, k) % 2 == 1)
  {
    if k > 0 {
      BitOfNumber(v / 2, n - 1, k - 1);
    }
  }

  function Halved(v: nat, k: nat): nat {
    if k == 0 then v else Halved(v / 2, k - 1)
  }

  lemma BitIs(b: byte)
    ensures Bit(b, 0) <==> b % 2 == 1
    ensures Bit(b, 4) <==> b / 16 % 2 == 1
    ensures Bit(b, 5) <==> b / 32 % 2 == 1
  {
    hide BitsOf, Halved;
    BitOfNumber(b, 8, 0);
    BitOfNumber(b, 8, 4);
    BitOfNumber(b, 8, 5);
    HalvedTwice(b, 2);
    HalvedTwice(b / 4, 0);
    HalvedTwice(b, 3);
    HalvedTwice(b / 4, 1);
    HalvedOnce(b);
    HalvedOnce(b / 4 / 4);
  }

  lemma HalvedTwice(v: nat, k: nat)
    ensures Halved(v, k + 2) == Halved(v / 4, k)
  {
    assert v / 2 / 2 == v / 4;
    assert Halved(v, k + 2) == Halved(v / 2, k + 1);
  }

  lemma HalvedOnce(v: nat)
    ensures Halved(v, 0) == v && Halved(v, 1) == v / 2
  {
  }

  /** Where the report is read: the bytes of the block, by number. */
  lemma ReportBytes(b: Block)
    ensures |b| == 678
    ensures var rs485, high, latch := b[600] / 16 % 2 == 1, b[601] % 2 == 1, b[587] / 32 % 2 == 1;
      ReportOf(b) == Report(
        if rs485 then "rs485" else if latch then "rs422" else "rs232",
        if rs485 then (if high then "high" else "low") else if latch then "high" else "low",
        b[669] as int * 256 + b[670], b[671] as int * 256 + b[672])
  {
    hide Bit;
    BitIs(b[600]);
    BitIs(b[601]);
    BitIs(b[587]);
  }

  /** A stamped block ends in the checksum of all bytes before it. */
  lemma StampBytes(b: Block)
    ensures Stamped(b)[..676] == b[..676] && Stamped(b)[676] as int * 256 + Stamped(b)[677] == Checksum(b[..676])
  {
    hide Checksum;
  }

  lemma ModeBitsApart(b: Block, c: Block)
    requires forall i: nat :: i < LENGTH && i !in {SETUP, SETUP + 1, HOLD, HOLD + 1} ==> c[i] == b[i]
    ensures ReportOf(c).mode == ReportOf(b).mode
  {
  }

  /** What the bytes with the given indices add up to, from one block to another. */
  function Drift(b: Block, c: Block, ps: seq<nat>): int
    requires forall i :: 0 <= i < |ps| ==> ps[i] < BODY
  {
    if ps == [] then 0 else c[ps[0]] as int - b[ps[0]] + Drift(b, c, ps[1..])
  }

  /** The same, each byte weighted with its distance from the end of the body. */
  function WeightedDrift(b: Block, c: Block, ps: seq<nat>): int
    requires forall i :: 0 <= i < |ps| ==> ps[i] < BODY
  {
    if ps == [] then 0 else (BODY - ps[0]) * (c[ps[0]] as int - b[ps[0]]) + WeightedDrift(b, c, ps[1..])
  }

  lemma {:induction false} DriftElsewhere(b: Block, c: Block, ps: seq<nat>, p: nat, x: byte)
    requires p < BODY && p !in ps && forall i :: 0 <= i < |ps| ==> ps[i] < BODY
    ensures Drift(b, c[p := x], ps) == Drift(b, c, ps) && WeightedDrift(b, c[p := x], ps) == WeightedDrift(b, c, ps)
  {
    if ps != [] {
      DriftElsewhere(b, c, ps[1..], p, x);
    }
  }

  lemma {:induction false} SumsDrift(b: Block, c: Block, ps: seq<nat>)
    requires forall i :: 0 <= i < |ps| ==> ps[i] < BODY
    requires forall i, j :: 0 <= i < j < |ps| ==> ps[i] != ps[j]
    requires forall k :: 0 <= k < BODY && k !in ps ==> c[k] == b[k]
    ensures Sum(BodyOf(c)) == Sum(BodyOf(b)) + Drift(b, c, ps)
    ensures WeightedSum(BodyOf(c)) == WeightedSum(BodyOf(b)) + WeightedDrift(b, c, ps)
    decreases |ps|
  {
    hide Sum, WeightedSum;
    if ps == [] {
      assert BodyOf(c) == BodyOf(b);
    } else {
      var p := ps[0];
      var mid: Block := c[p := b[p]];
      assert p !in ps[1..];
      SumsDrift(b, mid, ps[1..]);
      DriftElsewhere(b, c, ps[1..], p, b[p]);
      SumUpdate(BodyOf(mid), p, c[p]);
      assert BodyOf(mid)[p := c[p]] == BodyOf(c);
    }
  }

  /** The edits of a call cancel out in both sums. */
  predicate Cancelled(b: Block, c: Block) {
    Drift(b, c, EDITS) % 255 == 0 && WeightedDrift(b, c, EDITS) % 255 == 0
  }

  lemma CancelledIff(b: Block, mode: Option<string>, setup: nat, hold: nat)
    ensures Checksum(BodyOf(Edited(b, mode, setup, hold))) == Checksum(BodyOf(b))
       <==> Cancelled(b, Edited(b, mode, setup, hold))
  {
    hide Checksum, Edited, Sum, WeightedSum, Cong, Drift, WeightedDrift;
    var c := Edited(b, mode, setup, hold);
    SessionReports(b, mode, setup, hold);
    SumsDrift(b, c, EDITS);
    ChecksumEqual(BodyOf(c), BodyOf(b));
    CongShift(Sum(BodyOf(b)), Drift(b, c, EDITS));
    CongShift(WeightedSum(BodyOf(b)), WeightedDrift(b, c, EDITS));
  }

  /** A call takes effect exactly unless the changes of its seven bytes, plain and weighted with their
      distance from the end, both add up to a multiple of 255; then the chip keeps its block, which
      goes unnoticed only if nothing reported was to change. */
  lemma SessionFulfilledIff(b: Block, mode: Option<string>, setup: nat, hold: nat)
    ensures var edited := Edited(b, mode, setup, hold);
      Committed(b, mode, setup, hold) == if Cancelled(b, edited) then b else Stamped(edited)
    ensures var edited := Edited(b, mode, setup, hold);
      ReportOf(Committed(b, mode, setup, hold)) == ReportOf(edited)
      <==> !Cancelled(b, edited) || ReportOf(edited) == ReportOf(b)
  {
    hide Checksum, Edited, BitAt, Cancelled;
    CancelledIff(b, mode, setup, hold);
    StampKeepsReport(Edited(b, mode, setup, hold));
  }

  lemma StampKeepsReport(b: Block)
    ensures ReportOf(Stamped(b)) == ReportOf(b)
  {
    hide Checksum;
  }

  /** A mode and a time changed together can cancel out in the checksum, which neither change does
      alone: asking an rs232 chip with hold time 0xaa00 for rs422 and hold time 138 leaves it as it was. */
  lemma SessionLost(b: Block)
    requires ReportOf(b).mode == "rs232" && Word(b, SETUP) != 0 && Word(b, HOLD) == 0xaa00
    ensures Checksum(BodyOf(Edited(b, Some("rs422"), 0, 138))) == Checksum(BodyOf(b))
    ensures ReportOf(Edited(b, Some("rs422"), 0, 138)).mode == "rs422"
    ensures ReportOf(Edited(b, Some("rs422"), 0, 138)).hold == 138
  {
    hide Sum, WeightedSum, Checksum, Cong, BitAt, WithBit, SameText;
    Rs422();
    LatchSet(b);
    ChangesCancel(BodyOf(b));
    assert BodyOf(Edited(b, Some("rs422"), 0, 138))
        == BodyOf(b)[RESET_LATCH := b[RESET_LATCH] + 32][HOLD := 0][HOLD + 1 := 138];
    SwitchBits(b, "rs422");
    SessionReports(b, Some("rs422"), 0, 138);
  }

  lemma ChangesCancel(body: Bytes)
    requires |body| == BODY && body[RESET_LATCH] < 224 && body[HOLD] == 0xaa && body[HOLD + 1] == 0
    ensures Checksum(body[RESET_LATCH := body[RESET_LATCH] + 32][HOLD := 0][HOLD + 1 := 138]) == Checksum(body)
  {
    hide Sum, WeightedSum, Checksum, Cong;
    var once: Bytes := body[RESET_LATCH := body[RESET_LATCH] + 32];
    var twice: Bytes := once[HOLD := 0];
    SumUpdate(body, RESET_LATCH, body[RESET_LATCH] + 32);
    SumUpdate(once, HOLD, 0);
    SumUpdate(twice, HOLD + 1, 138);
    ChecksumEqual(twice[HOLD + 1 := 138], body);
    CongShift(Sum(body), 32 - 0xaa + 138);
    CongShift(WeightedSum(body), 89 * 32 - 5 * 0xaa + 4 * 138);
  }

  /** An rs232 block becomes an rs422 block by setting the latch bit. */
  lemma LatchSet(b: Block)
    requires ReportOf(b).mode == "rs232"
    ensures b[RESET_LATCH] < 224
    ensures Switched(b, "rs422") == b[RESET_LATCH := b[RESET_LATCH] + 32]
  {
    hide BitAt;
    Rs422();
    Pow2Five();
    SameBit(b, RS485_CONTROL, RS485_BIT, false);
    WithBitValue(b[RESET_LATCH], LATCH_BIT, true);
    LatchClear(b);
  }

  lemma LatchClear(b: Block)
    requires ReportOf(b).mode == "rs232"
    ensures !BitAt(b, RS485_CONTROL, RS485_BIT) && !Bit(b[RESET_LATCH], LATCH_BIT)
  {
  }

  lemma Rs422()
    ensures SameText("rs422", "rs422") && !SameText("rs422", "rs232") && !SameText("rs422", "rs485")
  {
    assert "rs422"[2] == '4' && "rs232"[2] == '2' && "rs422"[3] == '2' && "rs485"[3] == '8';
  }
}
