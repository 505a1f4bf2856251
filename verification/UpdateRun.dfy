/** The control flow of one run of the updater's main function: consent, backup, bounded retry,
    exit codes. Everything outside the program (answers, files, flash faults, digests) is an
    arbitrary world; the run records what it does in a log. */
module UpdateRun {

  datatype Firmware = Uboot | Env | Conf

  datatype Event =
    | Consent
    | ResetConsent
    | RollbackConsent
    | BackupRead(digest: int)
    | BackupStored
    | Attempt(number: nat)
    | FlashWrite(firmware: Firmware)
    | Verified(firmware: Firmware)

  /** How a step ends: normally, with an UpgradeError that carries a code, or with an exception
      that main does not catch. */
  datatype Outcome = Fine | Raises(code: UpgradeCode) | Crashes

  /** The codes an UpgradeError is raised with. */
  type UpgradeCode = c: nat | c in {3, 4, 5, 7, 8} witness 8

  datatype Exit = Code(n: nat) | Crash

  const SUCCESS: nat := 0
  const ROLLBACK_SUCCESS: nat := 1
  const INVALID_ARG: nat := 2
  const BACKUP_FAILED: nat := 3
  const ROLLBACK_FAILED: nat := 4
  const FLASHING_FAILED: nat := 5
  const CANCELED: nat := 6
  const INVALID_FIRMWARE: nat := 7

  datatype Args = Args(firmware: bool, force: bool, preserve: bool, reset: bool, rollback: bool, noBackup: bool,
                       backupDir: bool)
  {
    /** The two exclusive groups, and the extra rule for force. */
    predicate Parses() {
      && !(force && (preserve || reset || rollback)) && !(preserve && (reset || rollback)) && !(reset && rollback)
      && !(noBackup && backupDir) && !(force && (noBackup || backupDir))
    }
  }

  /** Writing one firmware: flash operations done, how the write ends, and the digests of the
      file and of what is read back. */
  datatype Flashing = Flashing(writes: nat, outcome: Outcome, fileDigest: int, flashDigest: int)

  datatype World = World(
    tarball: Outcome, suitable: bool, answer: string, resetAnswer: string, rollbackAnswer: string,
    updater: Outcome, backup: Outcome, firstRead: int, secondRead: int,
    flashing: (nat, Firmware) -> Flashing)

  predicate FlashesWell(f: Flashing) {
    f.outcome.Fine? && f.fileDigest == f.flashDigest
  }

  /** How writing and verifying one firmware ends; an unforced update gives every error code 5. */
  function FlashOutcome(args: Args, f: Flashing): Outcome {
    match f.outcome
    case Fine => if f.fileDigest == f.flashDigest then Fine else Raises(5)
    case Raises(code) => Raises(if args.force then code else 5)
    case Crashes => Crashes
  }

  /** How the n-th attempt ends: with its boot loader, unless that goes well and the environment follows. */
  function AttemptOutcome(args: Args, w: World, n: nat): Outcome {
    var boot := FlashOutcome(args, w.flashing(n, Uboot));
    if boot.Fine? && !args.force then FlashOutcome(args, w.flashing(n, Env)) else boot
  }

  // ---------- the stages of main ----------

  predicate Started(args: Args) {
    args.Parses() && (args.rollback || args.firmware)
  }

  /** The tarball is opened only for an update that is not forced. */
  predicate OpensTarball(args: Args) {
    !args.rollback && !args.force
  }

  predicate Unsuitable(args: Args, w: World) {
    Started(args) && OpensTarball(args) && w.tarball.Fine? && !w.suitable
  }

  predicate Asked(args: Args, w: World) {
    Started(args) && (OpensTarball(args) ==> w.tarball.Fine? && w.suitable)
  }

  predicate Agreed(args: Args, w: World) {
    w.answer == "y" && (args.reset ==> w.resetAnswer == "y")
  }

  /** Everything up to the choice between rollback and update went well. */
  predicate Prepared(args: Args, w: World) {
    Asked(args, w) && Agreed(args, w) && w.updater.Fine?
  }

  predicate BackupDue(args: Args) {
    !args.noBackup && !args.force
  }

  predicate BackupGood(args: Args, w: World) {
    BackupDue(args) ==> w.backup.Fine? && w.firstRead == w.secondRead
  }

  /** One of the questions was not answered with y. */
  predicate Declined(args: Args, w: World) {
    || (Asked(args, w) && !Agreed(args, w))
    || (Prepared(args, w) && args.rollback && w.rollbackAnswer != "y")
  }

  ghost predicate AllFail(args: Args, w: World, n: nat) {
    forall m: nat :: m < n ==> AttemptOutcome(args, w, m).Raises?
  }

  /** Attempt n is the first that does not end in a caught error, it is within the bound, and it passes. */
  ghost predicate SucceedsAt(args: Args, w: World, n: nat) {
    n < 4 && AllFail(args, w, n) && AttemptOutcome(args, w, n).Fine?
  }

  /** Attempt n is reached: a rollback makes one, an update goes on while attempts end in a caught error. */
  ghost predicate Reaches(args: Args, w: World, n: nat) {
    && Prepared(args, w)
    && (if args.rollback then w.rollbackAnswer == "y" && n == 0
        else BackupGood(args, w) && n < 4 && AllFail(args, w, n))
  }

  /** An UpgradeError with this code ends the run: from the tarball, from setting the updater up, from a
      due backup, or from the last attempt. */
  ghost predicate Caught(args: Args, w: World, code: UpgradeCode) {
    || (Started(args) && OpensTarball(args) && w.tarball == Raises(code))
    || (Asked(args, w) && Agreed(args, w) && w.updater == Raises(code))
    || (BackupFails(args, w) && !w.backup.Crashes? && code == 3)
    || FailsLast(args, w, code)
  }

  predicate BackupFails(args: Args, w: World) {
    Prepared(args, w) && !args.rollback && !BackupGood(args, w)
  }

  /** The only attempt of a rollback, or the fourth of an update, fails with this code. */
  ghost predicate FailsLast(args: Args, w: World, code: UpgradeCode) {
    var last := if args.rollback then 0 else 3;
    Reaches(args, w, last) && AttemptOutcome(args, w, last) == Raises(code)
  }

  /** An exception that main does not catch ends the run. */
  ghost predicate Uncaught(args: Args, w: World) {
    || (Started(args) && OpensTarball(args) && w.tarball.Crashes?)
    || (Asked(args, w) && Agreed(args, w) && w.updater.Crashes?)
    || (BackupFails(args, w) && w.backup.Crashes?)
    || exists n: nat :: Reaches(args, w, n) && AttemptOutcome(args, w, n).Crashes?
  }

  /** Which exit a run takes, for every exit there is. */
  ghost predicate RightExit(args: Args, w: World, exit: Exit) {
    && (exit == Code(0) <==>
          Prepared(args, w) && !args.rollback && BackupGood(args, w) && exists n: nat :: SucceedsAt(args, w, n))
    && (exit == Code(1) <==> args.rollback && Reaches(args, w, 0) && AttemptOutcome(args, w, 0).Fine?)
    && (exit == Code(2) <==> !Started(args))
    && (exit == Code(6) <==> Declined(args, w))
    && (exit == Crash <==> Uncaught(args, w))
    && (Unsuitable(args, w) ==> exit == Code(7))
    && (forall code: UpgradeCode :: Caught(args, w, code) ==> exit == Code(if args.rollback then 4 else code))
    && (exit in {Code(3), Code(4), Code(5), Code(7), Code(8)}
        <==> Unsuitable(args, w) || exists code: UpgradeCode :: Caught(args, w, code))
  }

  // ---------- safety of a log ----------

  ghost predicate Before(log: seq<Event>, e: Event, k: nat)
    requires k <= |log|
  {
    exists j: nat :: j < k && log[j] == e
  }

  /** Two reads of the flash with equal digests, and then the backup is stored. */
  predicate BackupAt(log: seq<Event>, j: nat) {
    j + 2 < |log| && log[j].BackupRead? && log[j + 1] == log[j] && log[j + 2].BackupStored?
  }

  ghost predicate BackedUpBefore(log: seq<Event>, k: nat) {
    exists j: nat :: j + 2 < k && BackupAt(log, j)
  }

  ghost predicate Permitted(args: Args, log: seq<Event>, k: nat)
    requires k <= |log|
  {
    && Before(log, Consent, k)
    && (args.reset ==> Before(log, ResetConsent, k))
    && (args.rollback ==> Before(log, RollbackConsent, k))
    && (!args.force && !args.noBackup && !args.rollback ==> BackedUpBefore(log, k))
  }

  /** No flash write comes before the consents and, where one is due, the backup. */
  ghost predicate Safe(args: Args, log: seq<Event>) {
    forall k :: 0 <= k < |log| && log[k].FlashWrite? ==> Permitted(args, log, k)
  }

  function Attempts(log: seq<Event>): nat {
    if log == [] then 0 else Attempts(log[..|log| - 1]) + if log[|log| - 1].Attempt? then 1 else 0
  }

  /** The log ends with a whole attempt, each firmware verified after its last write. */
  ghost predicate EndsVerified(args: Args, log: seq<Event>) {
    exists k: nat :: k < |log| && log[k].Attempt? && VerifiedFrom(args, log, k)
  }

  ghost predicate VerifiedFrom(args: Args, log: seq<Event>, k: nat) {
    && VerifiedLast(log, k, Uboot)
    && (!args.force ==> VerifiedLast(log, k, Env))
  }

  ghost predicate VerifiedLast(log: seq<Event>, k: nat, f: Firmware) {
    exists v: nat :: k < v < |log| && log[v] == Verified(f) && forall j :: v < j < |log| ==> log[j] != FlashWrite(f)
  }

  lemma SafeAppend(args: Args, log: seq<Event>, e: Event)
    requires Safe(args, log) && (e.FlashWrite? ==> Permitted(args, log, |log|))
    ensures Safe(args, log + [e])
    ensures forall k: nat :: k <= |log| && Permitted(args, log, k) ==> Permitted(args, log + [e], k)
    ensures Permitted(args, log, |log|) ==> Permitted(args, log + [e], |log| + 1)
  {
    var next := log + [e];
    forall k: nat | k <= |log|
      ensures Permitted(args, log, k) ==> Permitted(args, next, k)
    {
      Widen(args, log, next, k, k);
    }
    Widen(args, log, next, |log|, |next|);
  }

  lemma Widen(args: Args, log: seq<Event>, next: seq<Event>, k: nat, m: nat)
    requires k <= |log| <= |next| && next[..|log|] == log && k <= m <= |next|
    ensures Permitted(args, log, k) ==> Permitted(args, next, m)
  {
    assert forall j :: 0 <= j < |log| ==> next[j] == log[j];
    assert forall e :: Before(log, e, k) ==> Before(next, e, m);
    if BackedUpBefore(log, k) {
      var j: nat :| j + 2 < k && BackupAt(log, j);
      assert BackupAt(next, j);
    }
  }

  // ---------- the run ----------

  ghost predicate Wrote(log: seq<Event>) {
    exists k :: 0 <= k < |log| && log[k].FlashWrite?
  }

  class Run {
    const args: Args
    const world: World
    var log: seq<Event>

    constructor (args: Args, world: World)
      ensures this.args == args && this.world == world && log == []
    {
      this.args, this.world := args, world;
      log := [];
    }

    method Note(e: Event)
      requires Safe(args, log) && (e.FlashWrite? ==> Permitted(args, log, |log|))
      modifies this
      ensures log == old(log) + [e] && Safe(args, log)
      ensures old(Permitted(args, log, |log|)) ==> Permitted(args, log, |log|)
      ensures Attempts(log) == Attempts(old(log)) + if e.Attempt? then 1 else 0
    {
      SafeAppend(args, log, e);
      assert (log + [e])[..|log|] == log;
      log := log + [e];
    }

    /** Firmware.write: some flash operations, then success or an error. */
    method Write(f: Firmware, flashing: Flashing) returns (o: Outcome)
      requires Safe(args, log) && Permitted(args, log, |log|)
      modifies this
      ensures Safe(args, log) && Permitted(args, log, |log|) && old(log) <= log
      ensures Attempts(log) == Attempts(old(log))
      ensures forall k :: |old(log)| <= k < |log| ==> log[k] == FlashWrite(f)
      ensures o == flashing.outcome
    {
      hide Safe, Permitted, Attempts;
      for i := 0 to flashing.writes
        invariant Safe(args, log) && Permitted(args, log, |log|) && old(log) <= log
        invariant Attempts(log) == Attempts(old(log))
        invariant forall k :: |old(log)| <= k < |log| ==> log[k] == FlashWrite(f)
      {
        Note(FlashWrite(f));
      }
      o := flashing.outcome;
    }

    /** Write one firmware, read it back, compare the digests. */
    method Flash(f: Firmware, flashing: Flashing) returns (o: Outcome)
      requires Safe(args, log) && Permitted(args, log, |log|)
      modifies this
      ensures Safe(args, log) && Permitted(args, log, |log|) && old(log) <= log
      ensures Attempts(log) == Attempts(old(log))
      ensures o == FlashOutcome(args, flashing)
      ensures forall k :: |old(log)| <= k < |log| ==> log[k] in {FlashWrite(f), Verified(f)}
      ensures o.Fine? ==> |log| > |old(log)| && log[|log| - 1] == Verified(f)
    {
      hide Safe, Permitted, Attempts;
      o := Write(f, flashing);
      if o.Raises? && !args.force {
        return Raises(FLASHING_FAILED);
      }
      if !o.Fine? {
        return;
      }
      if flashing.fileDigest != flashing.flashDigest {
        return Raises(FLASHING_FAILED);
      }
      Note(Verified(f));
    }

    /** update: the boot loader first, then, unless forced, the environment. */
    method Update(n: nat) returns (o: Outcome)
      requires Safe(args, log) && Permitted(args, log, |log|)
      modifies this
      ensures Safe(args, log) && Permitted(args, log, |log|) && old(log) <= log
      ensures Attempts(log) == Attempts(old(log)) + 1
      ensures o == AttemptOutcome(args, world, n)
      ensures o.Fine? ==> EndsVerified(args, log)
    {
      hide Safe, Permitted, Attempts;
      ghost var start := |log|;
      Note(Attempt(n));
      o := Flash(Uboot, world.flashing(n, Uboot));
      if !o.Fine? {
        return;
      }
      ghost var uboot := |log| - 1;
      if !args.force {
        o := Flash(Env, world.flashing(n, Env));
        if !o.Fine? {
          return;
        }
        assert VerifiedLast(log, start, Env) by { assert log[|log| - 1] == Verified(Env); }
      }
      assert VerifiedLast(log, start, Uboot) by { assert log[uboot] == Verified(Uboot); }
      assert VerifiedFrom(args, log, start);
    }

    /** FirmwareUpdate.backup; a forced update backs nothing up. */
    method Backup() returns (o: Outcome)
      requires Safe(args, log)
      modifies this
      ensures Safe(args, log) && old(log) <= log && Attempts(log) == Attempts(old(log))
      ensures o.Fine? <==> args.force || (world.backup.Fine? && world.firstRead == world.secondRead)
      ensures o.Crashes? <==> !args.force && world.backup.Crashes?
      ensures o.Raises? ==> o.code == BACKUP_FAILED
      ensures o.Fine? && !args.force ==> BackedUpBefore(log, |log|)
      ensures forall e, k: nat :: k <= |old(log)| && Before(old(log), e, k) ==> Before(log, e, |log|)
      ensures Wrote(log) ==> Wrote(old(log))
    {
      hide Safe, Permitted, Attempts;
      if args.force {
        return Fine;
      }
      if world.backup.Crashes? {
        return Crashes;
      }
      if world.backup.Raises? {
        return Raises(BACKUP_FAILED);
      }
      Note(BackupRead(world.firstRead));
      Note(BackupRead(world.secondRead));
      if world.firstRead != world.secondRead {
        return Raises(BACKUP_FAILED);
      }
      Note(BackupStored);
      assert BackupAt(log, |old(log)|);
      o := Fine;
    }

    /** The handler around main's body. */
    function Handled(code: UpgradeCode): Exit {
      Code(if args.rollback then ROLLBACK_FAILED else code)
    }

    /** Every run: flash is written only after the consents and, unless waived, a backup whose two
        reads agree; there are at most four attempts, one for a rollback; and success is reported
        exactly when everything before went well and an attempt within the bound verified all. */
    method Program() returns (exit: Exit)
      requires log == []
      modifies this
      ensures Safe(args, log)
      ensures Attempts(log) <= if args.rollback then 1 else 4
      ensures exit in {Code(SUCCESS), Code(ROLLBACK_SUCCESS)} ==> EndsVerified(args, log)
      ensures RightExit(args, world, exit)
      ensures exit in {Code(CANCELED), Code(INVALID_ARG), Code(BACKUP_FAILED)} && !args.force ==> !Wrote(log)
    {
      hide Safe, Permitted, Attempts, AttemptOutcome, EndsVerified, RightExit, Uncaught, Caught;
      EmptyLog(args);
      if !Prepared(args, world) {
        EndsEarly(args, world);
      }
      if !args.Parses() || (!args.rollback && !args.firmware) {
        return Code(INVALID_ARG);
      }
      if !args.rollback && !args.force {
        if world.tarball.Crashes? {
          return Crash;
        }
        if world.tarball.Raises? {
          RaisesEarly(args, world, world.tarball.code);
          return Handled(world.tarball.code);
        }
        if !world.suitable {
          return Code(INVALID_FIRMWARE);
        }
      }
      if world.answer != "y" {
        return Code(CANCELED);
      }
      Note(Consent);
      assert log[0] == Consent;
      assert Before(log, Consent, |log|);
      if args.reset {
        if world.resetAnswer != "y" {
          return Code(CANCELED);
        }
        Note(ResetConsent);
        assert log[0] == Consent && log[1] == ResetConsent;
        assert Before(log, Consent, |log|) && Before(log, ResetConsent, |log|);
      }
      if world.updater.Crashes? {
        return Crash;
      }
      if world.updater.Raises? {
        RaisesEarly(args, world, world.updater.code);
        return Handled(world.updater.code);
      }
      if args.rollback {
        EndsRollback(args, world);
        exit := Rollback();
        return;
      }
      if BackupFails(args, world) {
        EndsBackup(args, world);
      }
      if !args.noBackup {
        var backedUp := Backup();
        if backedUp.Crashes? {
          return Crash;
        }
        if backedUp.Raises? {
          return Handled(backedUp.code);
        }
      }
      ReadyToWrite(args, log);
      exit := Retry();
      ghost var n: nat :| EndsAt(args, world, exit, n);
      EndsRetry(args, world, exit, n);
    }

    method Rollback() returns (exit: Exit)
      requires args.rollback && !args.reset && Safe(args, log) && Before(log, Consent, |log|) && Attempts(log) == 0
      requires !Wrote(log)
      modifies this
      ensures Safe(args, log) && Attempts(log) <= 1
      ensures exit == if world.rollbackAnswer == "y" then RollbackExit(args, world) else Code(6)
      ensures exit == Code(ROLLBACK_SUCCESS) ==> EndsVerified(args, log)
      ensures exit in {Code(ROLLBACK_SUCCESS), Code(ROLLBACK_FAILED), Code(CANCELED), Crash}
      ensures exit == Code(CANCELED) ==> !Wrote(log)
    {
      hide Safe, Attempts, AttemptOutcome, EndsVerified;
      if world.rollbackAnswer != "y" {
        return Code(CANCELED);
      }
      ghost var j: nat :| j < |log| && log[j] == Consent;
      Note(RollbackConsent);
      assert log[j] == Consent && log[|log| - 1] == RollbackConsent;
      assert Before(log, Consent, |log|) && Before(log, RollbackConsent, |log|);
      var o := Update(0);
      match o
      case Fine => exit := Code(ROLLBACK_SUCCESS);
      case Raises(code) => exit := Handled(code);
      case Crashes => exit := Crash;
    }

    method Retry() returns (exit: Exit)
      requires !args.rollback && Safe(args, log) && Permitted(args, log, |log|) && Attempts(log) == 0
      modifies this
      ensures Safe(args, log) && Attempts(log) <= 4
      ensures exists n: nat :: EndsAt(args, world, exit, n) && Attempts(log) == n + 1
      ensures exit == Code(SUCCESS) ==> EndsVerified(args, log)
      ensures exit != Code(ROLLBACK_SUCCESS)
      ensures !args.force ==> exit in {Code(SUCCESS), Code(FLASHING_FAILED), Crash}
    {
      hide Safe, Permitted, Attempts, AttemptOutcome, EndsVerified;
      var index := 0;
      while true
        invariant index <= 3 && Attempts(log) == index
        invariant Safe(args, log) && Permitted(args, log, |log|)
        invariant AllFail(args, world, index)
        decreases 3 - index
      {
        var o := Update(index);
        if o.Fine? {
          exit := Code(SUCCESS);
          assert EndsAt(args, world, exit, index);
          return;
        }
        if o.Crashes? {
          exit := Crash;
          assert EndsAt(args, world, exit, index);
          return;
        }
        if index > 2 {
          if !args.force {
            UnforcedCode(args, world, index);
          }
          exit := Handled(o.code);
          assert EndsAt(args, world, exit, index);
          return;
        }
        index := index + 1;
      }
    }
  }

  // ---------- which exit ----------

  function RollbackExit(args: Args, w: World): Exit {
    match AttemptOutcome(args, w, 0)
    case Fine => Code(1)
    case Raises(_) => Code(4)
    case Crashes => Crash
  }

  /** The retry loop ends with attempt n. */
  ghost predicate EndsAt(args: Args, w: World, exit: Exit, n: nat) {
    n < 4 && AllFail(args, w, n) &&
    match AttemptOutcome(args, w, n)
    case Fine => exit == Code(0)
    case Crashes => exit == Crash
    case Raises(code) => n == 3 && exit == Code(code)
  }

  lemma EndsEarly(args: Args, w: World)
    requires !Prepared(args, w)
    ensures !Started(args) ==> RightExit(args, w, Code(2))
    ensures Unsuitable(args, w) ==> RightExit(args, w, Code(7))
    ensures Asked(args, w) && !Agreed(args, w) ==> RightExit(args, w, Code(6))
    ensures Started(args) && OpensTarball(args) && w.tarball.Crashes? ==> RightExit(args, w, Crash)
    ensures Asked(args, w) && Agreed(args, w) && w.updater.Crashes? ==> RightExit(args, w, Crash)
  {
  }

  /** An error before the choice between rollback and update. */
  lemma RaisesEarly(args: Args, w: World, code: UpgradeCode)
    requires (Started(args) && OpensTarball(args) && w.tarball == Raises(code))
             || (Asked(args, w) && Agreed(args, w) && w.updater == Raises(code))
    ensures RightExit(args, w, Code(if args.rollback then 4 else code))
  {
    assert Caught(args, w, code);
  }

  lemma EndsRollback(args: Args, w: World)
    requires Prepared(args, w) && args.rollback
    ensures RightExit(args, w, if w.rollbackAnswer == "y" then RollbackExit(args, w) else Code(6))
  {
    hide AttemptOutcome, Agreed;
    var o := AttemptOutcome(args, w, 0);
    if w.rollbackAnswer == "y" {
      assert Reaches(args, w, 0);
      if o.Raises? { assert Caught(args, w, o.code); }
    }
  }

  lemma EndsBackup(args: Args, w: World)
    requires BackupFails(args, w)
    ensures RightExit(args, w, if w.backup.Crashes? then Crash else Code(3))
  {
    hide AttemptOutcome, Agreed;
    if !w.backup.Crashes? { assert Caught(args, w, 3); }
  }

  lemma EndsRetry(args: Args, w: World, exit: Exit, n: nat)
    requires Prepared(args, w) && !args.rollback && BackupGood(args, w) && EndsAt(args, w, exit, n)
    ensures RightExit(args, w, exit)
  {
    hide AttemptOutcome, Agreed;
    var o := AttemptOutcome(args, w, n);
    assert Reaches(args, w, n);
    if o.Raises? { assert Caught(args, w, o.code); }
    if o.Fine? { assert SucceedsAt(args, w, n); }
    forall m: nat | SucceedsAt(args, w, m)
      ensures m == n
    {
      OneEnd(args, w, exit, n, m);
    }
  }

  lemma OneEnd(args: Args, w: World, exit: Exit, n: nat, m: nat)
    requires EndsAt(args, w, exit, n) && SucceedsAt(args, w, m)
    ensures m == n
  {
  }

  /** An unforced update fails with one code only. */
  lemma UnforcedCode(args: Args, w: World, n: nat)
    requires !args.force && AttemptOutcome(args, w, n).Raises?
    ensures AttemptOutcome(args, w, n).code == 5
  {
  }

  lemma EmptyLog(args: Args)
    ensures Safe(args, []) && Attempts([]) == 0 && !Wrote([])
  {
  }

  lemma ReadyToWrite(args: Args, log: seq<Event>)
    requires !args.rollback && Before(log, Consent, |log|) && (args.reset ==> Before(log, ResetConsent, |log|))
    requires args.force || args.noBackup || BackedUpBefore(log, |log|)
    ensures Permitted(args, log, |log|)
  {
  }
}
