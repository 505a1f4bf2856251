/** Writing an image over NOR flash partitions block by block: a block that already holds the
    right bytes is left alone, any other block is erased and programmed. */
module Flash {
  import opened Common
  import opened Bits

  // ---------- NOR flash ----------

  /** Programming can only clear bits. */
  function And(a: byte, b: byte): byte {
    ByteOf(seq(8, i requires 0 <= i < 8 => BitsOf(a, 8)[i] && BitsOf(b, 8)[i]))
  }

  function AndAll(a: Bytes, b: Bytes): (r: Bytes)
    requires |a| == |b|
    ensures |r| == |a|
  {
    if a == [] then [] else [And(a[0], b[0])] + AndAll(a[1..], b[1..])
  }

  function Blank(n: nat): (r: Bytes)
    ensures |r| == n
  {
    seq(n, _ => 0xff)
  }

  lemma {:induction false} AllOnes(n: nat)
    ensures BitsOf(Pow2(n) - 1, n) == seq(n, _ => true)
  {
    if n > 0 {
      assert (Pow2(n) - 1) / 2 == Pow2(n - 1) - 1;
      AllOnes(n - 1);
    }
  }

  lemma ErasedByteTakes(b: byte)
    ensures And(0xff, b) == b
  {
    Pow2Values();
    AllOnes(8);
    ValOfBitsOf(b, 8);
    assert seq(8, i requires 0 <= i < 8 => BitsOf(0xff, 8)[i] && BitsOf(b, 8)[i]) == BitsOf(b, 8);
  }

  /** An erased block takes on exactly the bytes programmed into it. */
  lemma {:induction false} ErasedBlockTakes(b: Bytes)
    ensures AndAll(Blank(|b|), b) == b
  {
    if b != [] {
      ErasedByteTakes(b[0]);
      ErasedBlockTakes(b[1..]);
      assert Blank(|b|)[1..] == Blank(|b[1..]|);
    }
  }

  datatype Op = Erase(at: nat) | Program(at: nat)

  class Mtd {
    const name: string
    const eraseSize: nat
    var data: Bytes
    /** Erase and program operations so far. */
    ghost var log: seq<Op>

    constructor (name: string, eraseSize: nat, data: Bytes)
      ensures this.name == name && this.eraseSize == eraseSize && this.data == data && log == []
    {
      this.name, this.eraseSize, this.data := name, eraseSize, data;
      log := [];
    }

    /** The size of the partition is a whole number of erase blocks. */
    ghost predicate Aligned()
      reads this
    {
      eraseSize > 0 && Multiple(|data|, eraseSize)
    }

    method EraseBlock(start: nat, count: nat)
      requires start + count <= |data|
      modifies this
      ensures data == old(data)[..start] + Blank(count) + old(data)[start + count..]
      ensures log == old(log) + [Erase(start)]
    {
      data := data[..start] + Blank(count) + data[start + count..];
      log := log + [Erase(start)];
    }

    method ProgramBlock(start: nat, content: Bytes)
      requires start + |content| <= |data|
      modifies this
      ensures data == old(data)[..start] + AndAll(old(data)[start..start + |content|], content)
                      + old(data)[start + |content|..]
      ensures log == old(log) + [Program(start)]
    {
      data := data[..start] + AndAll(data[start..start + |content|], content) + data[start + |content|..];
      log := log + [Program(start)];
    }
  }

  /** An open file: its content and the read position. */
  class File {
    var content: Bytes
    var pos: nat

    constructor (content: Bytes)
      ensures this.content == content && pos == 0
    {
      this.content, pos := content, 0;
    }

    method Read(count: nat) returns (bytes: Bytes)
      modifies this`pos
      ensures bytes == ReadAt(content, old(pos), count)
      ensures pos == old(pos) + |bytes|
    {
      bytes := ReadAt(content, pos, count);
      pos := pos + |bytes|;
    }
  }

  /** A read at or behind the end of the file gives nothing. */
  function ReadAt(content: Bytes, pos: nat, count: nat): (r: Bytes)
    ensures |r| <= count
  {
    if pos >= |content| then [] else content[pos..if pos + count <= |content| then pos + count else |content|]
  }

  // ---------- what a write leaves ----------

  /** The image's bytes from pos on, 0xff behind its end. */
  function Window(image: Bytes, pos: nat, count: nat): (w: Bytes)
    ensures |w| == count
  {
    seq(count, i requires 0 <= i < count => if pos + i < |image| then image[pos + i] else 0xff)
  }

  predicate Multiple(x: nat, block: nat)
    requires block > 0
  {
    x == 0 || (x >= block && Multiple(x - block, block))
  }

  /** The least multiple of block that is not below x. */
  function RoundUp(x: nat, block: nat): (r: nat)
    requires block > 0
    ensures x <= r < x + block && Multiple(r, block)
  {
    if x == 0 then 0 else if x <= block then block else block + RoundUp(x - block, block)
  }

  /** Bytes of a partition that a write of fileSize bytes touches. */
  function Covered(size: nat, block: nat, fileSize: int): (c: nat)
    requires block > 0
    ensures c <= size
  {
    if fileSize <= 0 then 0 else if RoundUp(fileSize, block) <= size then RoundUp(fileSize, block) else size
  }

  function Written(data: Bytes, image: Bytes, pos: nat, block: nat, fileSize: int): (d: Bytes)
    requires block > 0
    ensures |d| == |data|
  {
    var c := Covered(|data|, block, fileSize);
    Window(image, pos, c) + data[c..]
  }

  /** The operations of a write up to a position: every block that differs from its target is
      erased and then programmed, in order, and no other block is touched. */
  ghost function Ops(data: Bytes, target: Bytes, block: nat, upto: nat): seq<Op>
    requires block > 0 && upto <= |data| && upto <= |target|
  {
    if upto < block then []
    else
      var at := upto - block;
      Ops(data, target, block, at)
      + if data[at..upto] == target[at..upto] then [] else [Erase(at), Program(at)]
  }

  /** Blocks that already hold their target cause no operation. */
  lemma {:induction false} NoOps(data: Bytes, target: Bytes, block: nat, upto: nat)
    requires block > 0 && upto <= |data| && upto <= |target| && data[..upto] == target[..upto]
    ensures Ops(data, target, block, upto) == []
  {
    if upto >= block {
      var at := upto - block;
      assert data[..at] == data[..upto][..at] && target[..at] == target[..upto][..at];
      assert data[at..upto] == data[..upto][at..upto] && target[at..upto] == target[..upto][at..upto];
      NoOps(data, target, block, at);
    }
  }

  predicate Differs(data: Bytes, target: Bytes, block: nat, at: nat) {
    at + block <= |data| && at + block <= |target| && data[at..at + block] != target[at..at + block]
  }

  /** A block is programmed only right after it was erased. */
  ghost predicate ErasedFirst(ops: seq<Op>) {
    forall i :: 0 <= i < |ops| && ops[i].Program? ==> i > 0 && ops[i - 1] == Erase(ops[i].at)
  }

  /** Exactly the blocks that differ are erased. */
  lemma {:induction false} ErasesWhatDiffers(data: Bytes, target: Bytes, block: nat, upto: nat, at: nat)
    requires block > 0 && upto <= |data| && upto <= |target| && Multiple(upto, block)
    ensures Erase(at) in Ops(data, target, block, upto)
       <==> Multiple(at, block) && at < upto && Differs(data, target, block, at)
  {
    if upto > 0 {
      var last := upto - block;
      ErasesWhatDiffers(data, target, block, last, at);
      assert Differs(data, target, block, last) <==> data[last..upto] != target[last..upto];
      if Multiple(at, block) && last < at < upto {
        NextMultiple(last, at, block);
      }
    }
  }

  lemma {:induction false} ProgramsOnlyErased(data: Bytes, target: Bytes, block: nat, upto: nat)
    requires block > 0 && upto <= |data| && upto <= |target|
    ensures ErasedFirst(Ops(data, target, block, upto))
  {
    if upto >= block {
      ProgramsOnlyErased(data, target, block, upto - block);
    }
  }

  lemma {:induction false} NextMultiple(x: nat, y: nat, block: nat)
    requires block > 0 && Multiple(x, block) && Multiple(y, block) && x < y
    ensures x + block <= y
  {
    if x > 0 {
      NextMultiple(x - block, y - block, block);
    }
  }

  /** Multiple is divisibility. */
  lemma {:induction false} MultipleIs(x: nat, block: nat)
    requires block > 0
    ensures Multiple(x, block) <==> x % block == 0
  {
    if x >= block {
      MultipleIs(x - block, block);
      SameRemainder(x - block, block);
    } else {
      assert x % block == x;
    }
  }

  lemma SameRemainder(x: nat, block: nat)
    requires block > 0
    ensures (x + block) % block == x % block
  {
    var q, r, q', r' := x / block, x % block, (x + block) / block, (x + block) % block;
    assert x == q * block + r && x + block == q' * block + r';
    assert (q' - q - 1) * block == r - r';
    BetweenMultiples(q' - q - 1, block);
  }

  lemma BetweenMultiples(k: int, block: int)
    requires -block < k * block < block
    ensures k == 0
  {
    assert k >= 1 ==> k * block >= 1 * block;
    assert k <= -1 ==> k * block <= -1 * block;
  }
}
