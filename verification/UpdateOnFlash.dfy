/** The updater's run over a flash without faults: what the four attempts of an update leave behind,
    and what a rollback brings back. */
module UpdateOnFlash {
  import opened Common
  import opened Flash
  import opened FlashWrite
  import opened Updater
  import U = UpdateRun

  /** The firmware files of one update and the flash layout it meets. */
  datatype Job = Job(image: Bytes, mkenv: nat -> Bytes, env: nat, backup: nat, block: nat)

  ghost predicate Fits(job: Job, datas: seq<Bytes>) {
    && job.block > 0 && MakesEnv(job.mkenv)
    && job.env < |datas| && job.backup < |datas| && job.env != job.backup
    && forall i :: 0 <= i < |datas| ==> Multiple(|datas[i]|, job.block)
  }

  ghost predicate CollisionFree(digest: Digest) {
    forall a, b :: digest(a) == digest(b) ==> a == b
  }

  predicate SameSizes(a: seq<Bytes>, b: seq<Bytes>) {
    |a| == |b| && forall i :: 0 <= i < |a| ==> |a[i]| == |b[i]|
  }

  // ---------- one attempt ----------

  function EnvWritten(datas: seq<Bytes>, job: Job): (news: seq<Bytes>)
    requires job.env < |datas| && job.backup < |datas|
    ensures |news| == |datas|
  {
    datas[job.env := job.mkenv(|datas[job.env]|)]
         [job.backup := Window(job.mkenv(|datas[job.backup]|), |datas[job.env]|, |datas[job.backup]|)]
  }

  ghost predicate BootPasses(datas: seq<Bytes>, job: Job, digest: Digest)
    requires job.block > 0
  {
    BootloaderVerified(datas, job.image, job.block, digest)
  }

  predicate EnvPasses(datas: seq<Bytes>, job: Job, digest: Digest)
    requires job.env < |datas| && job.backup < |datas|
  {
    digest(job.mkenv(|datas[job.backup]|)) == digest(job.mkenv(|datas[job.env]|))
  }

  /** The flash after one attempt. */
  ghost function Attempted(datas: seq<Bytes>, job: Job, force: bool, digest: Digest): (news: seq<Bytes>)
    requires Fits(job, datas)
    ensures |news| == |datas|
  {
    var flashed := Flashed(datas, job.image, job.block);
    if !force && BootPasses(datas, job, digest) then EnvWritten(flashed, job) else flashed
  }

  /** FirmwareUpdate.update leaves what Attempted says, and ends well when both checks pass. */
  method Attempt(parts: seq<Mtd>, uboot: File, digest: Digest, env: nat, backup: nat, mkenv: nat -> Bytes,
                 ghost job: Job)
    returns (r: Result<()>)
    requires Partitions(parts) && SameErase(parts, job.block) && Fits(job, Contents(parts))
    requires job == Job(uboot.content, mkenv, env, backup, job.block)
    modifies parts, uboot`pos
    ensures Partitions(parts)
    ensures Contents(parts) == Attempted(old(Contents(parts)), job, false, digest)
    ensures r.Ok? <==> BootPasses(old(Contents(parts)), job, digest) && EnvPasses(old(Contents(parts)), job, digest)
  {
    hide BootloaderVerified, Flashed, Window;
    ghost var olds := Contents(parts);
    r := Update(parts, uboot, env, backup, mkenv, digest, job.block);
    FlashedSizes(olds, job.image, job.block);
    if BootPasses(olds, job, digest) {
      assert Contents(parts) == EnvWritten(Flashed(olds, job.image, job.block), job);
    }
  }

  lemma AttemptedSizes(datas: seq<Bytes>, job: Job, force: bool, digest: Digest)
    requires Fits(job, datas)
    ensures SameSizes(Attempted(datas, job, force, digest), datas) && Fits(job, Attempted(datas, job, force, digest))
  {
    hide Window, Flashed, BootPasses, Multiple;
    FlashedSizes(datas, job.image, job.block);
  }

  // ---------- attempts in a row ----------

  ghost function After(datas: seq<Bytes>, job: Job, force: bool, digest: Digest, n: nat): (news: seq<Bytes>)
    requires Fits(job, datas)
    ensures Fits(job, news) && SameSizes(news, datas)
  {
    if n == 0 then datas
    else
      var before := After(datas, job, force, digest, n - 1);
      AttemptedSizes(before, job, force, digest);
      Attempted(before, job, force, digest)
  }

  /** Flashed as by a first attempt, whatever the environment partitions hold. */
  ghost predicate BootWritten(datas: seq<Bytes>, job: Job, force: bool, i: nat, data: Bytes)
    requires Fits(job, datas) && i < |datas|
  {
    force || (i != job.env && i != job.backup) ==> data == Flashed(datas, job.image, job.block)[i]
  }

  lemma FlashedAgain(datas: seq<Bytes>, now: seq<Bytes>, job: Job, i: nat)
    requires Fits(job, datas) && SameSizes(now, datas) && i < |datas|
    requires now[i] == datas[i] || now[i] == Flashed(datas, job.image, job.block)[i]
    ensures Flashed(now, job.image, job.block)[i] == Flashed(datas, job.image, job.block)[i]
  {
    hide Window, Covered, Ops, Start;
    var news := Flashed(datas, job.image, job.block);
    FlashedSizes(datas, job.image, job.block);
    StartIs(now, datas, i);
    StartIs(news, datas, i);
    WriteAgain(datas, job.image, job.block, i);
    assert now[i] == datas[i]
           ==> WrittenPart(now, job.image, job.block, i) == WrittenPart(datas, job.image, job.block, i);
    assert now[i] == news[i]
           ==> WrittenPart(now, job.image, job.block, i) == WrittenPart(news, job.image, job.block, i);
  }

  lemma {:induction false} AfterIsFlashed(datas: seq<Bytes>, job: Job, force: bool, digest: Digest, n: nat, i: nat)
    requires Fits(job, datas) && n > 0 && i < |datas|
    ensures BootWritten(datas, job, force, i, After(datas, job, force, digest, n)[i])
  {
    hide Flashed, BootPasses, Multiple, Window, MakesEnv;
    if force || (i != job.env && i != job.backup) {
      var before := After(datas, job, force, digest, n - 1);
      if n > 1 {
        AfterIsFlashed(datas, job, force, digest, n - 1, i);
      }
      FlashedAgain(datas, before, job, i);
    }
  }

  /** What an exit code 0 promises, in terms of the flash before the first attempt: the environment
      partition holds its image, every other one its share of the boot loader. The backup holds what
      the second write leaves of its image. */
  ghost predicate Deployed(news: seq<Bytes>, datas: seq<Bytes>, job: Job, force: bool)
    requires Fits(job, datas) && |news| == |datas|
  {
    && (forall i :: 0 <= i < |datas| ==> BootWritten(datas, job, force, i, news[i]))
    && (!force ==>
          && news[job.env] == job.mkenv(|datas[job.env]|)
          && news[job.backup] == Window(job.mkenv(|datas[job.backup]|), |datas[job.env]|, |datas[job.backup]|))
  }

  /** The world of a run is a flash without faults: every attempt starts from what the one before left,
      and its two digest checks come out as on that flash. */
  ghost predicate OnFlash(w: U.World, args: U.Args, datas: seq<Bytes>, job: Job, digest: Digest)
    requires Fits(job, datas)
  {
    forall n: nat :: n < 4 ==>
      AttemptOnFlash(w.flashing(n, U.Uboot), w.flashing(n, U.Env), After(datas, job, args.force, digest, n), job,
                     digest)
  }

  ghost predicate AttemptOnFlash(boot: U.Flashing, env: U.Flashing, datas: seq<Bytes>, job: Job, digest: Digest)
    requires Fits(job, datas)
  {
    && !boot.outcome.Crashes? && (U.FlashesWell(boot) <==> BootPasses(datas, job, digest))
    && (BootPasses(datas, job, digest) ==>
          !env.outcome.Crashes? && (U.FlashesWell(env) <==> EnvPasses(datas, job, digest)))
  }

  /** When attempt n is the one that succeeds, the flash after it is the one asked for, however the
      attempts before it failed. */
  lemma SuccessIsDeployed(w: U.World, args: U.Args, datas: seq<Bytes>, job: Job, digest: Digest, n: nat)
    requires Fits(job, datas) && OnFlash(w, args, datas, job, digest) && U.SucceedsAt(args, w, n)
    ensures Deployed(After(datas, job, args.force, digest, n + 1), datas, job, args.force)
  {
    hide Flashed, BootPasses, EnvPasses, BootWritten, Window, Multiple, MakesEnv;
    var before := After(datas, job, args.force, digest, n);
    assert AttemptOnFlash(w.flashing(n, U.Uboot), w.flashing(n, U.Env), before, job, digest);
    var news := After(datas, job, args.force, digest, n + 1);
    forall i | 0 <= i < |news|
      ensures BootWritten(datas, job, args.force, i, news[i])
    {
      AfterIsFlashed(datas, job, args.force, digest, n + 1, i);
    }
    FlashedSizes(before, job.image, job.block);
  }

  // ---------- retrying ----------

  /** What decides an update when no two files have the same digest. */
  predicate Deployable(datas: seq<Bytes>, job: Job, force: bool)
    requires job.block > 0 && job.env < |datas| && job.backup < |datas|
  {
    && 0x8c0000 <= Start(datas, |datas|) && |job.image| == RoundUp(0x8c0000, job.block)
    && (force || |datas[job.env]| == |datas[job.backup]|)
  }

  lemma ChecksPassIff(datas: seq<Bytes>, now: seq<Bytes>, job: Job, digest: Digest)
    requires Fits(job, datas) && Fits(job, now) && SameSizes(now, datas) && CollisionFree(digest)
    ensures BootPasses(now, job, digest)
            <==> READ_BACK <= Start(datas, |datas|) && |job.image| == RoundUp(READ_BACK, job.block)
    ensures EnvPasses(now, job, digest) <==> |datas[job.env]| == |datas[job.backup]|
  {
    hide Multiple, RoundUp, FlashHead, Flashed;
    StartIs(now, datas, |datas|);
    StartMultiple(datas, job.block, |datas|);
    if READ_BACK <= Start(datas, |datas|) {
      RoundUpAtMost(READ_BACK, Start(datas, |datas|), job.block);
      if |job.image| <= Start(now, |now|) {
        BootloaderCheckPasses(now, job.image, job.block, digest);
      }
    }
    var m := job.mkenv;
    assert |m(|now[job.env]|)| == |now[job.env]| && |m(|now[job.backup]|)| == |now[job.backup]|;
  }

  /** On a flash without faults the first attempt decides: with a collision-free digest the run
      succeeds exactly when the image has the length that is read back and, unless forced, the two
      environment partitions are equally large. Trying again never helps. */
  lemma FirstAttemptDecides(w: U.World, args: U.Args, datas: seq<Bytes>, job: Job, digest: Digest)
    requires Fits(job, datas) && OnFlash(w, args, datas, job, digest) && CollisionFree(digest)
    ensures (exists n: nat :: U.SucceedsAt(args, w, n)) <==> Deployable(datas, job, args.force)
    ensures forall n: nat :: U.SucceedsAt(args, w, n) ==> n == 0
  {
    hide BootPasses, EnvPasses, Fits, Flashed, Deployable;
    LayoutOf(datas, job);
    forall n: nat | n < 4
      ensures U.AttemptOutcome(args, w, n).Fine? <==> Deployable(datas, job, args.force)
      ensures !U.AttemptOutcome(args, w, n).Crashes?
    {
      var now := After(datas, job, args.force, digest, n);
      assert AttemptOnFlash(w.flashing(n, U.Uboot), w.flashing(n, U.Env), now, job, digest);
      ChecksPassIff(datas, now, job, digest);
      DeployableIs(datas, job, args.force);
    }
    if Deployable(datas, job, args.force) {
      assert U.SucceedsAt(args, w, 0);
    }
  }

  lemma LayoutOf(datas: seq<Bytes>, job: Job)
    requires Fits(job, datas)
    ensures job.block > 0 && job.env < |datas| && job.backup < |datas|
  {
  }

  lemma DeployableIs(datas: seq<Bytes>, job: Job, force: bool)
    requires job.block > 0 && job.env < |datas| && job.backup < |datas|
    ensures Deployable(datas, job, force)
       <==> 0x8c0000 <= Start(datas, |datas|) && |job.image| == RoundUp(0x8c0000, job.block)
            && (force || |datas[job.env]| == |datas[job.backup]|)
  {
  }

  // ---------- backup and rollback ----------

  /** The boot loader file a backup saves: what is read back from the flash. */
  function Saved(datas: seq<Bytes>, block: nat): Bytes
    requires block > 0
  {
    FlashHead(datas, block, READ_BACK)
  }

  /** The flash after writing a saved boot loader: the saved bytes, and behind them what is there. */
  lemma SavedWritten(datas: seq<Bytes>, now: seq<Bytes>, block: nat)
    requires block > 0 && SameSizes(now, datas) && READ_BACK <= Start(datas, |datas|)
    requires forall i :: 0 <= i < |datas| ==> Multiple(|datas[i]|, block)
    ensures var r := RoundUp(READ_BACK, block);
      && r <= |Concat(datas)| == |Concat(now)| && |Saved(datas, block)| == r
      && Concat(Flashed(now, Saved(datas, block), block)) == Concat(datas)[..r] + Concat(now)[r..]
  {
    hide Multiple, RoundUp, Flashed;
    ConcatStart(datas);
    ConcatStart(now);
    StartIs(now, datas, |datas|);
    StartMultiple(datas, block, |datas|);
    RoundUpAtMost(READ_BACK, |Concat(datas)|, block);
    RoundedAgain(READ_BACK, block);
    FlashHoldsImage(now, Saved(datas, block), block);
  }

  lemma RoundedAgain(x: nat, block: nat)
    requires block > 0
    ensures RoundUp(RoundUp(x, block), block) == RoundUp(x, block)
  {
    RoundUpIs(RoundUp(x, block), RoundUp(x, block), block);
  }

  /** Equal concatenations of equally long pieces are equal piece by piece. */
  lemma {:induction false} SamePieces(a: seq<Bytes>, b: seq<Bytes>)
    requires SameSizes(a, b) && Concat(a) == Concat(b)
    ensures a == b
  {
    if a != [] {
      var n := |a| - 1;
      SameLength(a[..n], b[..n]);
      var k := |Concat(a[..n])|;
      assert Concat(a)[..k] == Concat(a[..n]) && Concat(b)[..k] == Concat(b[..n]);
      assert Concat(a)[k..] == a[n] && Concat(b)[k..] == b[n];
      SamePieces(a[..n], b[..n]);
      assert a == a[..n] + [a[n]] && b == b[..n] + [b[n]];
    }
  }

  lemma {:induction false} SameLength(a: seq<Bytes>, b: seq<Bytes>)
    requires SameSizes(a, b)
    ensures |Concat(a)| == |Concat(b)|
  {
    if a != [] {
      SameLength(a[..|a| - 1], b[..|b| - 1]);
    }
  }

  /** A rollback's boot loader write passes its check whatever the digest, and gives the flash back as
      it was when the backup was made, exactly when nothing has changed behind the bytes that are
      backed up. */
  lemma RollbackRestoresIff(datas: seq<Bytes>, now: seq<Bytes>, block: nat, digest: Digest)
    requires block > 0 && SameSizes(now, datas) && READ_BACK <= Start(datas, |datas|)
    requires forall i :: 0 <= i < |datas| ==> Multiple(|datas[i]|, block)
    ensures BootloaderVerified(now, Saved(datas, block), block, digest)
    ensures |Concat(now)| == |Concat(datas)| && RoundUp(0x8c0000, block) <= |Concat(now)|
    ensures Flashed(now, Saved(datas, block), block) == datas
       <==> Concat(now)[RoundUp(0x8c0000, block)..] == Concat(datas)[RoundUp(0x8c0000, block)..]
  {
    hide Multiple, RoundUp, Flashed, Saved, FlashHead, Start;
    var r, saved := RoundUp(READ_BACK, block), Saved(datas, block);
    SavedWritten(datas, now, block);
    StartIs(now, datas, |datas|);
    ConcatStart(now);
    BootloaderCheckPasses(now, saved, block, digest);
    FlashedSizes(now, saved, block);
    var news := Flashed(now, saved, block);
    assert Concat(news)[r..] == Concat(now)[r..] && Concat(news)[..r] == Concat(datas)[..r];
    if Concat(now)[r..] == Concat(datas)[r..] {
      assert Concat(datas) == Concat(datas)[..r] + Concat(datas)[r..];
      SamePieces(news, datas);
    }
  }

  /** After a whole rollback, on any flash of the same layout: every partition but the two environment
      ones has its backed-up bytes again; the environment is the newly assembled one, not what the
      flash held. */
  lemma RollbackRestores(datas: seq<Bytes>, now: seq<Bytes>, job: Job, digest: Digest, i: nat, x: nat)
    requires Fits(job, datas) && SameSizes(now, datas) && READ_BACK <= Start(datas, |datas|)
    requires job.image == Saved(datas, job.block)
    requires i < |datas| && x < |datas[i]|
    ensures Fits(job, now)
    ensures i != job.env && i != job.backup && Start(datas, i) + x < |job.image|
        ==> |Attempted(now, job, false, digest)[i]| == |datas[i]|
            && Attempted(now, job, false, digest)[i][x] == datas[i][x]
    ensures Attempted(now, job, false, digest)[job.env] == job.mkenv(|datas[job.env]|)
  {
    hide Multiple, RoundUp, Flashed, Window, BootloaderVerified, FlashHead;
    SavedWritten(datas, now, job.block);
    RollbackRestoresIff(datas, now, job.block, digest);
    AttemptedSizes(now, job, false, digest);
    FlashedSizes(now, job.image, job.block);
    StartIs(now, datas, i);
    if Start(datas, i) + x < |job.image| {
      ShareHoldsImage(now, job.image, job.block, i, x);
      HeadAt(datas, job.block, READ_BACK, i, x);
    }
  }

  lemma HeadAt(datas: seq<Bytes>, block: nat, count: nat, i: nat, x: nat)
    requires block > 0 && i < |datas| && x < |datas[i]| && Start(datas, i) + x < |FlashHead(datas, block, count)|
    ensures FlashHead(datas, block, count)[Start(datas, i) + x] == datas[i][x]
  {
    hide Covered;
    ConcatAt(datas, i, x);
  }

  lemma {:induction false} ConcatAt(datas: seq<Bytes>, i: nat, x: nat)
    requires i < |datas| && x < |datas[i]|
    ensures Start(datas, i) + x < |Concat(datas)| && Concat(datas)[Start(datas, i) + x] == datas[i][x]
  {
    var n := |datas| - 1;
    ConcatStart(datas[..n]);
    StartPrefix(datas, n, n);
    if i < n {
      ConcatAt(datas[..n], i, x);
      StartPrefix(datas, n, i);
    }
  }
}
