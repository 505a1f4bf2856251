/** The flash writers and readers of the firmware updater: one partition, the boot loader image
    across all partitions, and the environment on top of it. */
module FlashWrite {
  import opened Common
  import opened Flash

  lemma {:induction false} RoundUpIs(x: nat, m: nat, block: nat)
    requires block > 0 && Multiple(m, block) && x <= m < x + block
    ensures RoundUp(x, block) == m
  {
    var r := RoundUp(x, block);
    if r < m {
      NextMultiple(r, m, block);
    } else if m < r {
      NextMultiple(m, r, block);
    }
  }

  /** The position where the block loop stops. */
  lemma StopsAtCovered(size: nat, block: nat, fileSize: int, pos: nat)
    requires block > 0 && Multiple(size, block) && Multiple(pos, block) && pos <= size
    requires pos >= size || fileSize - pos <= 0
    requires pos > 0 ==> pos - block < fileSize
    ensures pos == Covered(size, block, fileSize)
  {
    if fileSize > 0 {
      if fileSize <= pos {
        RoundUpIs(fileSize, pos, block);
      }
    }
  }

  /** The bytes read for one block, filled up with 0xff. */
  lemma PaddedBlock(content: Bytes, pos: nat, block: nat)
    ensures ReadAt(content, pos, block) + Blank(block - |ReadAt(content, pos, block)|) == Window(content, pos, block)
  {
  }

  lemma WindowGrows(content: Bytes, pos: nat, a: nat, b: nat)
    ensures Window(content, pos, a) + Window(content, pos + a, b) == Window(content, pos, a + b)
  {
  }

  /** One round of the block loop: compare, and erase and program if the block differs. The
      device's read and write offset is where the previous round left it. */
  method WriteBlock(dev: Mtd, file: File, mtdPos: nat, offset: nat) returns (next: nat)
    requires dev.eraseSize > 0 && mtdPos + dev.eraseSize <= |dev.data| && offset == mtdPos
    modifies dev, file`pos
    ensures dev.data == old(dev.data)[..mtdPos] + Window(file.content, old(file.pos), dev.eraseSize)
                        + old(dev.data)[mtdPos + dev.eraseSize..]
    ensures dev.log == old(dev.log)
      + if old(dev.data)[mtdPos..mtdPos + dev.eraseSize] == Window(file.content, old(file.pos), dev.eraseSize)
        then [] else [Erase(mtdPos), Program(mtdPos)]
    ensures file.pos == old(file.pos) + |ReadAt(file.content, old(file.pos), dev.eraseSize)|
    ensures next == mtdPos + dev.eraseSize
  {
    hide AndAll, Window;
    var block := dev.eraseSize;
    var mtdContent := dev.data[offset..offset + block];
    next := offset + block;
    var firmwareContent := file.Read(block);
    PaddedBlock(file.content, old(file.pos), block);
    firmwareContent := firmwareContent + Blank(block - |firmwareContent|);
    if mtdContent != firmwareContent {
      dev.EraseBlock(mtdPos, block);
      ErasedBlockTakes(firmwareContent);
      assert dev.data[mtdPos..mtdPos + block] == Blank(block);
      next := mtdPos;
      dev.ProgramBlock(next, firmwareContent);
      next := next + |firmwareContent|;
    }
  }

  /** MtdDevice.write. */
  method WritePartition(dev: Mtd, file: File, fileSize: int) returns (rest: int)
    requires dev.Aligned()
    modifies dev, file`pos
    ensures dev.Aligned() && |dev.data| == |old(dev.data)|
    ensures dev.data == Written(old(dev.data), file.content, old(file.pos), dev.eraseSize, fileSize)
    ensures rest == fileSize - Covered(|dev.data|, dev.eraseSize, fileSize)
    ensures file.pos == old(file.pos)
              + |ReadAt(file.content, old(file.pos), Covered(|dev.data|, dev.eraseSize, fileSize))|
    ensures dev.log == old(dev.log)
              + Ops(old(dev.data), dev.data, dev.eraseSize, Covered(|dev.data|, dev.eraseSize, fileSize))
  {
    hide Window, Ops;
    var block := dev.eraseSize;
    var mtdPos, offset := 0, 0;
    rest := fileSize;
    ghost var before, start, log0 := dev.data, file.pos, dev.log;
    NothingWritten(before, block, file.content, start);
    while mtdPos < |dev.data| && rest > 0
      invariant |dev.data| == |before| && offset == mtdPos <= |before| && Multiple(mtdPos, block)
      invariant rest == fileSize - mtdPos && (mtdPos > 0 ==> mtdPos - block < fileSize)
      invariant dev.data == Window(file.content, start, mtdPos) + before[mtdPos..]
      invariant file.pos == start + |ReadAt(file.content, start, mtdPos)|
      invariant dev.log == log0 + Ops(before, dev.data, block, mtdPos)
      decreases |before| - mtdPos
    {
      NextMultiple(mtdPos, |before|, block);
      ghost var now := dev.data;
      ReadsInStep(file.content, start, mtdPos, block);
      WindowGrows(file.content, start, mtdPos, block);
      offset := WriteBlock(dev, file, mtdPos, offset);
      NextBlock(before, now, dev.data, block, mtdPos);
      mtdPos := mtdPos + block;
      rest := rest - block;
    }
    StopsAtCovered(|before|, block, fileSize, mtdPos);
  }

  lemma NothingWritten(data: Bytes, block: nat, content: Bytes, pos: nat)
    requires block > 0
    ensures Window(content, pos, 0) == [] && Ops(data, data, block, 0) == []
  {
  }

  lemma ReadsInStep(content: Bytes, start: nat, done: nat, block: nat)
    ensures var pos := start + |ReadAt(content, start, done)|;
      Window(content, pos, block) == Window(content, start + done, block)
      && pos + |ReadAt(content, pos, block)| == start + |ReadAt(content, start, done + block)|
  {
  }

  lemma NextBlock(before: Bytes, now: Bytes, target: Bytes, block: nat, upto: nat)
    requires block > 0 && |before| == |now| == |target| && upto + block <= |before|
    requires now[..upto] == target[..upto] && now[upto..] == before[upto..]
    ensures Ops(before, target, block, upto + block)
         == Ops(before, now, block, upto)
            + if now[upto..upto + block] == target[upto..upto + block] then [] else [Erase(upto), Program(upto)]
  {
    SameOps(before, now, target, block, upto);
    assert before[upto..upto + block] == now[upto..][..block];
  }

  /** The operations up to a position depend only on the target up to there. */
  lemma {:induction false} SameOps(data: Bytes, t: Bytes, u: Bytes, block: nat, upto: nat)
    requires block > 0 && upto <= |data| && upto <= |t| && upto <= |u| && t[..upto] == u[..upto]
    ensures Ops(data, t, block, upto) == Ops(data, u, block, upto)
  {
    if upto >= block {
      var at := upto - block;
      assert t[..at] == t[..upto][..at] && u[..at] == u[..upto][..at];
      assert t[at..upto] == t[..upto][at..upto] && u[at..upto] == u[..upto][at..upto];
      SameOps(data, t, u, block, at);
    }
  }

  // ---------- several partitions ----------

  ghost predicate Partitions(parts: seq<Mtd>)
    reads parts
  {
    (forall i :: 0 <= i < |parts| ==> parts[i].Aligned())
    && forall i, j :: 0 <= i < j < |parts| ==> parts[i] != parts[j]
  }

  ghost function Contents(parts: seq<Mtd>): (ds: seq<Bytes>)
    reads parts
    ensures |ds| == |parts|
  {
    seq(|parts|, i requires 0 <= i < |parts| reads parts => parts[i].data)
  }

  /** Where partition i starts in the concatenated flash. */
  function Start(datas: seq<Bytes>, i: nat): nat
    requires i <= |datas|
  {
    if i == 0 then 0 else Start(datas, i - 1) + |datas[i - 1]|
  }

  lemma {:induction false} StartIs(a: seq<Bytes>, b: seq<Bytes>, i: nat)
    requires i <= |a| && |a| == |b| && forall j :: 0 <= j < |a| ==> |a[j]| == |b[j]|
    ensures Start(a, i) == Start(b, i)
  {
    if i > 0 {
      StartIs(a, b, i - 1);
    }
  }

  function WrittenPart(datas: seq<Bytes>, image: Bytes, block: nat, i: nat): Bytes
    requires block > 0 && i < |datas|
  {
    Written(datas[i], image, Start(datas, i), block, |image| - Start(datas, i))
  }

  function Flashed(datas: seq<Bytes>, image: Bytes, block: nat): (news: seq<Bytes>)
    requires block > 0
    ensures |news| == |datas|
  {
    seq(|datas|, i requires 0 <= i < |datas| => WrittenPart(datas, image, block, i))
  }

  lemma {:induction false} ConcatStart(datas: seq<Bytes>)
    ensures |Concat(datas)| == Start(datas, |datas|)
  {
    if datas != [] {
      ConcatStart(datas[..|datas| - 1]);
      StartPrefix(datas, |datas| - 1, |datas| - 1);
    }
  }

  lemma {:induction false} StartPrefix(datas: seq<Bytes>, n: nat, i: nat)
    requires i <= n <= |datas|
    ensures Start(datas[..n], i) == Start(datas, i)
  {
    if i > 0 {
      StartPrefix(datas, n, i - 1);
    }
  }

  lemma {:induction false} StartMultiple(datas: seq<Bytes>, block: nat, i: nat)
    requires block > 0 && i <= |datas| && forall j :: 0 <= j < |datas| ==> Multiple(|datas[j]|, block)
    ensures Multiple(Start(datas, i), block)
  {
    if i > 0 {
      StartMultiple(datas, block, i - 1);
      SumMultiple(Start(datas, i - 1), |datas[i - 1]|, block);
    }
  }

  lemma {:induction false} SumMultiple(x: nat, y: nat, block: nat)
    requires block > 0 && Multiple(x, block) && Multiple(y, block)
    ensures Multiple(x + y, block)
  {
    if y > 0 {
      SumMultiple(x, y - block, block);
    }
  }

  /** RoundUp of what is left behind a whole number of blocks. */
  lemma {:induction false} RoundUpShift(x: nat, m: nat, block: nat)
    requires block > 0 && Multiple(m, block)
    ensures RoundUp(x + m, block) == RoundUp(x, block) + m
  {
    SumMultiple(RoundUp(x, block), m, block);
    RoundUpIs(x + m, RoundUp(x, block) + m, block);
  }

  /** Writing partition by partition is one write over the concatenated flash. */
  lemma {:induction false} FlashedJoined(datas: seq<Bytes>, image: Bytes, block: nat)
    requires block > 0 && forall j :: 0 <= j < |datas| ==> Multiple(|datas[j]|, block)
    ensures Concat(Flashed(datas, image, block)) == Written(Concat(datas), image, 0, block, |image|)
  {
    hide Written, Multiple;
    if datas == [] {
      NothingToWrite(image, block);
    } else {
      var n := |datas| - 1;
      var init := datas[..n];
      FlashedJoined(init, image, block);
      forall i | 0 <= i < n
        ensures WrittenPart(init, image, block, i) == WrittenPart(datas, image, block, i)
      {
        StartPrefix(datas, n, i);
      }
      assert Flashed(datas, image, block)[..n] == Flashed(init, image, block);
      ConcatStart(init);
      StartPrefix(datas, n, n);
      StartMultiple(datas, block, n);
      AppendWritten(Concat(init), datas[n], image, block);
    }
  }

  lemma NothingToWrite(image: Bytes, block: nat)
    requires block > 0
    ensures Written([], image, 0, block, |image|) == []
  {
  }

  lemma AppendWritten(front: Bytes, back: Bytes, image: Bytes, block: nat)
    requires block > 0 && Multiple(|front|, block) && Multiple(|back|, block)
    ensures Written(front, image, 0, block, |image|) + Written(back, image, |front|, block, |image| - |front|)
         == Written(front + back, image, 0, block, |image|)
  {
    hide Window, Multiple, Covered, RoundUp, Written;
    CoveredAppend(|front|, |back|, |image|, block);
    var f, b := Covered(|front|, block, |image|), Covered(|back|, block, |image| - |front|);
    WrittenIs(front, image, 0, block, |image|);
    WrittenIs(back, image, |front|, block, |image| - |front|);
    WrittenIs(front + back, image, 0, block, |image|);
    WindowSplit(image, f, b, |front|);
    Glue(Window(image, 0, f), front, f, Window(image, |front|, b), back, b);
  }

  lemma WindowSplit(image: Bytes, f: nat, b: nat, pos: nat)
    requires b > 0 ==> f == pos
    ensures Window(image, 0, f) + Window(image, pos, b) == Window(image, 0, f + b)
    ensures b == 0 ==> Window(image, pos, b) == []
  {
    if b == 0 {
      assert Window(image, pos, b) == [];
    } else {
      WindowGrows(image, 0, f, b);
    }
  }

  lemma Glue(v: Bytes, front: Bytes, f: nat, w: Bytes, back: Bytes, b: nat)
    requires f <= |front| && b <= |back| && (f == |front| || (b == 0 && w == []))
    ensures |front + back| == |front| + |back|
    ensures (v + front[f..]) + (w + back[b..]) == (v + w) + (front + back)[f + b..]
  {
  }

  lemma WrittenIs(data: Bytes, image: Bytes, pos: nat, block: nat, fileSize: int)
    requires block > 0
    ensures var c := Covered(|data|, block, fileSize);
      Written(data, image, pos, block, fileSize) == Window(image, pos, c) + data[c..]
  {
  }

  lemma CoveredAppend(front: nat, back: nat, size: nat, block: nat)
    requires block > 0 && Multiple(front, block) && Multiple(back, block)
    ensures Covered(front + back, block, size) == Covered(front, block, size) + Covered(back, block, size - front)
    ensures Covered(back, block, size - front) > 0 ==> Covered(front, block, size) == front
  {
    hide Multiple, RoundUp;
    SumMultiple(front, back, block);
    if size <= front {
      RoundUpAtMost(size, front, block);
    } else {
      RoundUpShift(size - front, front, block);
    }
  }

  lemma RoundUpAtMost(x: nat, m: nat, block: nat)
    requires block > 0 && Multiple(m, block) && x <= m
    ensures RoundUp(x, block) <= m
  {
    if m < RoundUp(x, block) {
      NextMultiple(m, RoundUp(x, block), block);
    }
  }
}
