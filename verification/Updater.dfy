/** The boot loader and environment firmware of the updater, and one update over the flash. */
module Updater {
  import opened Common
  import opened Flash
  import opened FlashWrite

  const READ_BACK := 0x8c0000

  ghost predicate SameErase(parts: seq<Mtd>, block: nat) {
    block > 0 && forall i :: 0 <= i < |parts| ==> parts[i].eraseSize == block
  }

  ghost function Logs(parts: seq<Mtd>): (ls: seq<seq<Op>>)
    reads parts
    ensures |ls| == |parts|
  {
    seq(|parts|, i requires 0 <= i < |parts| reads parts => parts[i].log)
  }

  /** The operations a boot loader write needs on partition i. */
  ghost function WriteOps(olds: seq<Bytes>, image: Bytes, block: nat, i: nat): seq<Op>
    requires block > 0 && i < |olds|
  {
    Ops(olds[i], WrittenPart(olds, image, block, i), block, Covered(|olds[i]|, block, |image| - Start(olds, i)))
  }

  /** Partition i holds its share of the image and was erased only where it differed. */
  ghost predicate PartWritten(p: Mtd, olds: seq<Bytes>, log: seq<Op>, image: Bytes, block: nat, i: nat)
    requires block > 0 && i < |olds|
    reads p
  {
    p.data == WrittenPart(olds, image, block, i) && p.log == log + WriteOps(olds, image, block, i)
  }

  /** BootloaderFirmware.write: partition after partition until the image is used up. Running out
      of partitions is an error, raised only after all of them were written. */
  method WriteBootloader(parts: seq<Mtd>, file: File, ghost block: nat) returns (r: Result<()>)
    requires Partitions(parts) && SameErase(parts, block)
    modifies parts, file`pos
    ensures Partitions(parts)
    ensures Contents(parts) == Flashed(old(Contents(parts)), file.content, block)
    ensures forall i :: 0 <= i < |parts| ==>
      PartWritten(parts[i], old(Contents(parts)), old(Logs(parts))[i], file.content, block, i)
    ensures r.Ok? <==> |file.content| <= Start(old(Contents(parts)), |parts|)
    ensures r.Err? ==> r.error == UpgradeError
  {
    hide PartWritten, Flashed, Start, WrittenPart, WriteOps, Partitions;
    ghost var olds, logs, image := Contents(parts), Logs(parts), file.content;
    StartZero(olds);
    var size := |file.content|;
    file.pos := 0;
    var mtdNum := 0;
    while size > 0 && mtdNum < |parts|
      decreases |parts| - mtdNum
      invariant mtdNum <= |parts| && Partitions(parts)
      invariant size <= 0 ==> |image| <= Start(olds, mtdNum)
      invariant size > 0 ==> size == |image| - Start(olds, mtdNum) && file.pos == Start(olds, mtdNum)
      invariant forall j :: 0 <= j < mtdNum ==> PartWritten(parts[j], olds, logs[j], image, block, j)
      invariant forall j :: mtdNum <= j < |parts| ==> parts[j].data == olds[j] && parts[j].log == logs[j]
    {
      size := WriteNth(parts, file, size, olds, block, mtdNum);
      mtdNum := mtdNum + 1;
    }
    forall j | mtdNum <= j < |parts|
      ensures PartWritten(parts[j], olds, logs[j], image, block, j)
    {
      StartGrows(olds, mtdNum, j);
      Untouched(parts[j], olds, image, block, j);
    }
    StartGrows(olds, mtdNum, |parts|);
    AllWritten(parts, olds, logs, image, block);
    r := if size > 0 then Err(UpgradeError) else Ok(());
  }

  /** One turn of the loop: partition k gets its share, the others stay. */
  method WriteNth(parts: seq<Mtd>, file: File, size: int, ghost olds: seq<Bytes>, ghost block: nat, k: nat)
    returns (rest: int)
    requires Partitions(parts) && SameErase(parts, block) && k < |parts| && |olds| == |parts|
    requires parts[k].data == olds[k]
    requires size > 0 && size == |file.content| - Start(olds, k) && file.pos == Start(olds, k)
    modifies parts, file`pos
    ensures Partitions(parts) && PartWritten(parts[k], olds, old(parts[k].log), file.content, block, k)
    ensures forall j :: 0 <= j < |parts| && j != k ==> unchanged(parts[j])
    ensures rest <= 0 ==> |file.content| <= Start(olds, k + 1)
    ensures rest > 0 ==> rest == |file.content| - Start(olds, k + 1) && file.pos == Start(olds, k + 1)
  {
    hide PartWritten, Start;
    rest := WriteShare(parts[k], file, size, olds, block, k);
  }

  lemma StartZero(olds: seq<Bytes>)
    ensures Start(olds, 0) == 0
  {
  }

  /** The share of one partition. */
  method WriteShare(dev: Mtd, file: File, size: int, ghost olds: seq<Bytes>, ghost block: nat, ghost i: nat)
    returns (rest: int)
    requires dev.Aligned() && dev.eraseSize == block && i < |olds| && dev.data == olds[i]
    requires size > 0 && size == |file.content| - Start(olds, i) && file.pos == Start(olds, i)
    modifies dev, file`pos
    ensures dev.Aligned()
    ensures PartWritten(dev, olds, old(dev.log), file.content, block, i)
    ensures rest <= 0 ==> |file.content| <= Start(olds, i + 1)
    ensures rest > 0 ==> rest == |file.content| - Start(olds, i + 1) && file.pos == Start(olds, i + 1)
  {
    hide Ops, Window, Covered, ReadAt;
    CoverStep(|olds[i]|, block, size, file.content, file.pos);
    rest := WritePartition(dev, file, size);
  }

  lemma AllWritten(parts: seq<Mtd>, olds: seq<Bytes>, logs: seq<seq<Op>>, image: Bytes, block: nat)
    requires block > 0 && |parts| == |olds| == |logs|
    requires forall j :: 0 <= j < |parts| ==> PartWritten(parts[j], olds, logs[j], image, block, j)
    ensures Contents(parts) == Flashed(olds, image, block)
  {
    hide WrittenPart, Ops;
    assert forall j :: 0 <= j < |parts| ==> Contents(parts)[j] == WrittenPart(olds, image, block, j);
  }

  /** Either the whole partition is covered, or the image ends inside it. */
  lemma CoverStep(size: nat, block: nat, fileSize: int, image: Bytes, pos: nat)
    requires block > 0 && fileSize > 0 && pos + fileSize == |image|
    ensures var c := Covered(size, block, fileSize);
      && (c == size || (fileSize <= c && fileSize <= size))
      && (fileSize > c ==> c == size && pos + |ReadAt(image, pos, c)| == pos + size)
  {
  }

  lemma {:induction false} StartGrows(datas: seq<Bytes>, i: nat, j: nat)
    requires i <= j <= |datas|
    ensures Start(datas, i) <= Start(datas, j)
  {
    if i < j {
      StartGrows(datas, i, j - 1);
    }
  }

  lemma Untouched(dev: Mtd, olds: seq<Bytes>, image: Bytes, block: nat, j: nat)
    requires block > 0 && j < |olds| && |image| <= Start(olds, j) && dev.data == olds[j]
    ensures PartWritten(dev, olds, dev.log, image, block, j)
  {
    hide Start;
    assert Window(image, Start(olds, j), 0) == [];
  }

  // ---------- reading back ----------

  /** MtdDevice.read. */
  method ReadPartition(dev: Mtd, fileSize: int) returns (bytes: Bytes)
    requires dev.Aligned()
    ensures bytes == dev.data[..Covered(|dev.data|, dev.eraseSize, fileSize)]
  {
    var block := dev.eraseSize;
    var mtdPos, rest := 0, fileSize;
    bytes := [];
    while mtdPos < |dev.data| && rest > 0
      invariant mtdPos <= |dev.data| && Multiple(mtdPos, block)
      invariant rest == fileSize - mtdPos && (mtdPos > 0 ==> mtdPos - block < fileSize)
      invariant bytes == dev.data[..mtdPos]
      decreases |dev.data| - mtdPos
    {
      NextMultiple(mtdPos, |dev.data|, block);
      bytes := bytes + dev.data[mtdPos..mtdPos + block];
      mtdPos := mtdPos + block;
      rest := rest - block;
    }
    StopsAtCovered(|dev.data|, block, fileSize, mtdPos);
  }

  /** The first bytes of the concatenated flash, up to a whole number of blocks. */
  function FlashHead(datas: seq<Bytes>, block: nat, count: nat): Bytes
    requires block > 0
  {
    Concat(datas)[..Covered(|Concat(datas)|, block, count)]
  }

  /** BootloaderFirmware.read. */
  method ReadBootloader(parts: seq<Mtd>, count: nat, ghost block: nat) returns (r: Result<Bytes>)
    requires Partitions(parts) && SameErase(parts, block)
    ensures r.Ok? <==> count <= Start(Contents(parts), |parts|)
    ensures r.Ok? ==> r.value == FlashHead(Contents(parts), block, count)
    ensures r.Err? ==> r.error == UpgradeError
  {
    hide Covered, Multiple, Start;
    ghost var datas := Contents(parts);
    StartZero(datas);
    var bytes: Bytes := [];
    var size: int := count;
    var mtdNum := 0;
    while size > 0 && mtdNum < |parts|
      decreases |parts| - mtdNum
      invariant mtdNum <= |parts| && size == count - Start(datas, mtdNum)
      invariant bytes == FlashHead(datas[..mtdNum], block, count)
    {
      var part := ReadPartition(parts[mtdNum], size);
      HeadStep(datas, block, count, mtdNum);
      bytes := bytes + part;
      size := size - |parts[mtdNum].data|;
      mtdNum := mtdNum + 1;
    }
    StartGrows(datas, mtdNum, |parts|);
    if size > 0 {
      r := Err(UpgradeError);
    } else {
      HeadDone(datas, block, count, mtdNum);
      r := Ok(bytes);
    }
  }

  lemma HeadStep(datas: seq<Bytes>, block: nat, count: nat, i: nat)
    requires block > 0 && i < |datas| && forall j :: 0 <= j < |datas| ==> Multiple(|datas[j]|, block)
    ensures Start(datas, i + 1) == Start(datas, i) + |datas[i]|
    ensures FlashHead(datas[..i + 1], block, count)
         == FlashHead(datas[..i], block, count) + datas[i][..Covered(|datas[i]|, block, count - Start(datas, i))]
  {
    hide Covered, Multiple;
    var front, back := Concat(datas[..i]), datas[i];
    assert datas[..i + 1] == datas[..i] + [back];
    ConcatSnoc(datas[..i], back);
    ConcatStart(datas[..i]);
    StartPrefix(datas, i, i);
    StartMultiple(datas, block, i);
    CoveredAppend(|front|, |back|, count, block);
  }

  lemma {:induction false} HeadDone(datas: seq<Bytes>, block: nat, count: nat, i: nat)
    requires block > 0 && i <= |datas| && forall j :: 0 <= j < |datas| ==> Multiple(|datas[j]|, block)
    requires count <= Start(datas, i)
    ensures FlashHead(datas, block, count) == FlashHead(datas[..i], block, count)
    decreases |datas| - i
  {
    hide FlashHead, Multiple, Covered, Start;
    if i == |datas| {
      assert datas[..i] == datas;
    } else {
      HeadStep(datas, block, count, i);
      NothingCovered(|datas[i]|, block, count - Start(datas, i));
      HeadDone(datas, block, count, i + 1);
    }
  }

  lemma NothingCovered(size: nat, block: nat, count: int)
    requires block > 0 && count <= 0
    ensures Covered(size, block, count) == 0
  {
  }

  // ---------- what the boot loader write means ----------

  /** Within the image, every flash byte is the image's byte; the last block is filled with 0xff,
      and what lies behind it is the old content. */
  lemma FlashHoldsImage(olds: seq<Bytes>, image: Bytes, block: nat)
    requires block > 0 && (forall j :: 0 <= j < |olds| ==> Multiple(|olds[j]|, block))
    requires |image| <= |Concat(olds)|
    ensures RoundUp(|image|, block) <= |Concat(olds)|
    ensures Concat(Flashed(olds, image, block))
         == image + Blank(RoundUp(|image|, block) - |image|) + Concat(olds)[RoundUp(|image|, block)..]
  {
    ConcatStart(olds);
    StartMultiple(olds, block, |olds|);
    RoundUpAtMost(|image|, |Concat(olds)|, block);
    FlashedJoined(olds, image, block);
    var r := RoundUp(|image|, block);
    assert Window(image, 0, r) == image + Blank(r - |image|);
    if image == [] {
      assert r == 0;
    }
  }

  /** Writing the same image again changes nothing and erases nothing. */
  lemma WriteAgain(olds: seq<Bytes>, image: Bytes, block: nat, i: nat)
    requires block > 0 && i < |olds| && forall j :: 0 <= j < |olds| ==> Multiple(|olds[j]|, block)
    ensures WrittenPart(Flashed(olds, image, block), image, block, i) == Flashed(olds, image, block)[i]
    ensures WriteOps(Flashed(olds, image, block), image, block, i) == []
  {
    hide Window, Covered, Ops;
    var news := Flashed(olds, image, block);
    StartIs(news, olds, i);
    var c := Covered(|olds[i]|, block, |image| - Start(olds, i));
    assert news[i] == Window(image, Start(olds, i), c) + olds[i][c..];
    assert news[i][..c] == Window(image, Start(olds, i), c) && news[i][c..] == olds[i][c..];
    NoOps(news[i], news[i], block, c);
  }

  /** The read-back equals the image exactly when the image has the length that is always read. */
  lemma ReadBackIsImage(olds: seq<Bytes>, image: Bytes, block: nat, count: nat)
    requires block > 0 && (forall j :: 0 <= j < |olds| ==> Multiple(|olds[j]|, block))
    requires |image| <= |Concat(olds)| && count <= |Concat(olds)|
    ensures FlashHead(Flashed(olds, image, block), block, count) == image <==> |image| == RoundUp(count, block)
  {
    hide Multiple, RoundUp;
    ConcatStart(olds);
    StartMultiple(olds, block, |olds|);
    RoundUpAtMost(count, |Concat(olds)|, block);
    FlashHoldsImage(olds, image, block);
    var news := Concat(Flashed(olds, image, block));
    assert |news| == |Concat(olds)|;
    ZeroRounds(block);
    if |image| == RoundUp(count, block) {
      assert news[..|image|] == image;
    }
  }

  lemma ZeroRounds(block: nat)
    requires block > 0
    ensures RoundUp(0, block) == 0
  {
  }

  // ---------- the environment ----------

  /** EnvFirmware's search for its partitions. Number 0 counts as not found. */
  method FindEnv(parts: seq<Mtd>) returns (r: Result<(nat, nat)>)
    ensures r.Ok? <==> (exists i :: 1 <= i < |parts| && i < 20 && parts[i].name == "env")
                       && exists j :: 1 <= j < |parts| && j < 20 && parts[j].name == "env.backup"
    ensures r.Ok? ==> r.value.0 < |parts| && parts[r.value.0].name == "env"
    ensures r.Ok? ==> r.value.1 < |parts| && parts[r.value.1].name == "env.backup"
  {
    var env, backup := 0, 0;
    for mtdNum := 0 to 20
      invariant mtdNum <= |parts|
      invariant env == 0 || (env < mtdNum && parts[env].name == "env")
      invariant backup == 0 || (backup < mtdNum && parts[backup].name == "env.backup")
      invariant env == 0 ==> forall i :: 1 <= i < mtdNum ==> parts[i].name != "env"
      invariant backup == 0 ==> forall i :: 1 <= i < mtdNum ==> parts[i].name != "env.backup"
      invariant env == 0 || backup == 0
    {
      if mtdNum >= |parts| {
        return Err(UpgradeError);
      }
      if parts[mtdNum].name == "env" {
        env := mtdNum;
      }
      if parts[mtdNum].name == "env.backup" {
        backup := mtdNum;
      }
      if env != 0 && backup != 0 {
        return Ok((env, backup));
      }
    }
    r := Err(UpgradeError);
  }

  /** mkenvimage -s: an image of exactly the size asked for. */
  ghost predicate MakesEnv(mkenv: nat -> Bytes) {
    forall n: nat :: |mkenv(n)| == n
  }

  /** EnvFirmware.write. The image file is filled anew for each partition, but its read position is
      not set back in between. Returns the file content that the verification reads. */
  method WriteEnv(parts: seq<Mtd>, env: nat, backup: nat, mkenv: nat -> Bytes) returns (r: Result<Bytes>)
    requires Partitions(parts) && env < |parts| && backup < |parts| && env != backup && MakesEnv(mkenv)
    modifies parts[env], parts[backup]
    ensures Partitions(parts)
    ensures parts[env].data == mkenv(|old(parts[env].data)|)
    ensures parts[backup].data
            == Window(mkenv(|old(parts[backup].data)|), |old(parts[env].data)|, |old(parts[backup].data)|)
    ensures r == Ok(mkenv(|old(parts[backup].data)|))
  {
    hide Ops, Multiple;
    var file := new File([]);
    var n := |parts[env].data|;
    file.content := mkenv(n);
    FullyCovered(n, parts[env].eraseSize);
    var rest := WritePartition(parts[env], file, n);
    if rest > 0 {
      return Err(UpgradeError);
    }
    n := |parts[backup].data|;
    file.content := mkenv(n);
    FullyCovered(n, parts[backup].eraseSize);
    rest := WritePartition(parts[backup], file, n);
    if rest > 0 {
      return Err(UpgradeError);
    }
    r := Ok(file.content);
  }

  lemma FullyCovered(n: nat, block: nat)
    requires block > 0 && Multiple(n, block)
    ensures Covered(n, block, n) == n
  {
    RoundUpIs(n, n, block);
  }

  /** The second copy starts where the first one stopped reading. When the backup partition is not
      larger than the environment partition that is the end of the file, and the backup ends up
      blank. For any sizes it is a copy exactly when its image is blank itself. */
  lemma BackupIsBlank(mkenv: nat -> Bytes, env: nat, backup: nat)
    requires MakesEnv(mkenv) && env > 0
    ensures backup <= env ==> Window(mkenv(backup), env, backup) == Blank(backup)
    ensures Window(mkenv(backup), env, backup) == mkenv(backup) <==> mkenv(backup) == Blank(backup)
  {
    assert |mkenv(backup)| == backup;
    if Window(mkenv(backup), env, backup) == mkenv(backup) {
      BlankFromEnd(mkenv(backup), env, 0);
      assert mkenv(backup) == Blank(backup);
    }
  }

  /** A file that equals itself shifted by a positive distance, 0xff coming in, is blank. */
  lemma {:induction false} BlankFromEnd(image: Bytes, shift: nat, k: nat)
    requires shift > 0 && k <= |image| && Window(image, shift, |image|) == image
    ensures forall i :: k <= i < |image| ==> image[i] == 0xff
    decreases |image| - k
  {
    if k < |image| {
      BlankFromEnd(image, shift, k + 1);
      assert image[k] == Window(image, shift, |image|)[k];
    }
  }

  lemma FlashedSizes(olds: seq<Bytes>, image: Bytes, block: nat)
    requires block > 0
    ensures forall i :: 0 <= i < |olds| ==> |Flashed(olds, image, block)[i]| == |olds[i]|
  {
  }

  // ---------- one update ----------

  type Digest = Bytes -> int

  ghost predicate BootloaderVerified(olds: seq<Bytes>, image: Bytes, block: nat, digest: Digest)
    requires block > 0
  {
    && |image| <= Start(olds, |olds|) && READ_BACK <= Start(olds, |olds|)
    && digest(image) == digest(FlashHead(Flashed(olds, image, block), block, READ_BACK))
  }

  /** The boot loader half of an update, and all of a forced one: write, read back, compare. */
  method UpdateBootloader(parts: seq<Mtd>, uboot: File, digest: Digest, ghost block: nat) returns (r: Result<()>)
    requires Partitions(parts) && SameErase(parts, block)
    modifies parts, uboot`pos
    ensures Partitions(parts)
    ensures Contents(parts) == Flashed(old(Contents(parts)), uboot.content, block)
    ensures r.Ok? <==> BootloaderVerified(old(Contents(parts)), uboot.content, block, digest)
    ensures r.Err? ==> r.error == UpgradeError
  {
    hide Flashed, Start, FlashHead, PartWritten;
    ghost var olds := Contents(parts);
    var written := WriteBootloader(parts, uboot, block);
    if written.Err? {
      return Err(UpgradeError);
    }
    FlashedSizes(olds, uboot.content, block);
    StartIs(Contents(parts), olds, |parts|);
    var readOut := ReadBootloader(parts, READ_BACK, block);
    if readOut.Err? || digest(uboot.content) != digest(readOut.value) {
      return Err(UpgradeError);
    }
    r := Ok(());
  }

  /** The environment half of an update. */
  method UpdateEnv(parts: seq<Mtd>, env: nat, backup: nat, mkenv: nat -> Bytes, digest: Digest) returns (r: Result<()>)
    requires Partitions(parts) && MakesEnv(mkenv) && env < |parts| && backup < |parts| && env != backup
    modifies parts[env], parts[backup]
    ensures Partitions(parts)
    ensures parts[env].data == mkenv(|old(parts[env].data)|)
    ensures parts[backup].data
            == Window(mkenv(|old(parts[backup].data)|), |old(parts[env].data)|, |old(parts[backup].data)|)
    ensures r.Ok? <==> digest(mkenv(|old(parts[backup].data)|)) == digest(mkenv(|old(parts[env].data)|))
    ensures r.Err? ==> r.error == UpgradeError
  {
    hide Window, Multiple, Covered;
    var content := WriteEnv(parts, env, backup, mkenv);
    if content.Err? {
      return Err(UpgradeError);
    }
    var readOut := ReadPartition(parts[env], |parts[env].data|);
    FullyCovered(|parts[env].data|, parts[env].eraseSize);
    assert readOut == parts[env].data;
    if digest(content.value) != digest(readOut) {
      return Err(UpgradeError);
    }
    r := Ok(());
  }

  /** FirmwareUpdate.update on fault-free flash. The environment is touched only after the boot
      loader's digest check has passed; then it holds the generated image, and every partition
      but the two environment ones holds its share of the boot loader image. */
  method Update(parts: seq<Mtd>, uboot: File, env: nat, backup: nat, mkenv: nat -> Bytes, digest: Digest,
                ghost block: nat)
    returns (r: Result<()>)
    requires Partitions(parts) && SameErase(parts, block) && MakesEnv(mkenv)
    requires env < |parts| && backup < |parts| && env != backup
    modifies parts, uboot`pos
    ensures Partitions(parts)
    ensures !BootloaderVerified(old(Contents(parts)), uboot.content, block, digest)
        ==> r == Err(UpgradeError) && Contents(parts) == Flashed(old(Contents(parts)), uboot.content, block)
    ensures BootloaderVerified(old(Contents(parts)), uboot.content, block, digest)
        ==> Overlaid(parts, old(Contents(parts)), uboot.content, env, backup, mkenv, block)
    ensures BootloaderVerified(old(Contents(parts)), uboot.content, block, digest)
        ==> (r.Ok? <==> digest(mkenv(|old(parts[backup].data)|)) == digest(mkenv(|old(parts[env].data)|)))
  {
    hide Flashed, BootloaderVerified, Window;
    ghost var olds := Contents(parts);
    var verified := UpdateBootloader(parts, uboot, digest, block);
    if verified.Err? {
      return Err(UpgradeError);
    }
    FlashedSizes(olds, uboot.content, block);
    ghost var flashed := Contents(parts);
    assert forall i :: 0 <= i < |parts| ==> parts[i].data == flashed[i];
    r := UpdateEnv(parts, env, backup, mkenv, digest);
  }

  ghost predicate Overlaid(parts: seq<Mtd>, olds: seq<Bytes>, image: Bytes, env: nat, backup: nat,
                           mkenv: nat -> Bytes, block: nat)
    requires block > 0 && |parts| == |olds| && env < |parts| && backup < |parts|
    reads parts
  {
    && parts[env].data == mkenv(|olds[env]|)
    && parts[backup].data == Window(mkenv(|olds[backup]|), |olds[env]|, |olds[backup]|)
    && forall i :: 0 <= i < |parts| && i != env && i != backup ==> parts[i].data == Flashed(olds, image, block)[i]
  }

  /** With an image of the length that is read back, whole blocks and room for it, the boot loader
      check passes whatever the digest; with a collision-free digest it passes for no other length. */
  lemma BootloaderCheckPasses(olds: seq<Bytes>, image: Bytes, block: nat, digest: Digest)
    requires block > 0 && (forall j :: 0 <= j < |olds| ==> Multiple(|olds[j]|, block))
    requires |image| <= Start(olds, |olds|) && READ_BACK <= Start(olds, |olds|)
    ensures |image| == RoundUp(READ_BACK, block) ==> BootloaderVerified(olds, image, block, digest)
    ensures (forall a, b :: digest(a) == digest(b) ==> a == b)
        ==> (BootloaderVerified(olds, image, block, digest) <==> |image| == RoundUp(READ_BACK, block))
  {
    hide FlashHead, Flashed, RoundUp;
    ConcatStart(olds);
    ReadBackIsImage(olds, image, block, READ_BACK);
  }

  /** Byte for byte: a partition that holds its share of the image holds the image's bytes. */
  lemma ShareHoldsImage(olds: seq<Bytes>, image: Bytes, block: nat, i: nat, x: nat)
    requires block > 0 && i < |olds| && (forall j :: 0 <= j < |olds| ==> Multiple(|olds[j]|, block))
    requires x < |olds[i]| && Start(olds, i) + x < |image|
    ensures Flashed(olds, image, block)[i][x] == image[Start(olds, i) + x]
  {
    var left := |image| - Start(olds, i);
    if RoundUp(left, block) > |olds[i]| {
      assert Covered(|olds[i]|, block, left) == |olds[i]|;
    } else {
      assert Covered(|olds[i]|, block, left) >= left;
    }
  }
}
