/**
 Identity migration from a plaintext version 1 file to an encrypted version 2 file, through a backup,
 a candidate, a rollback and a marker file. A run is the sequence of file operations it performs;
 a crash leaves the files as some prefix of that sequence left them.
 */
module Migration {
  import opened Wrappers

  type Did = string
  type Passphrase = string
  type Path = string

  /** `Sealed` opens under its own passphrase only, and only if the file is intact. */
  datatype Stored =
    | Plain(did: Did)
    | Sealed(did: Did, pass: Passphrase, intact: bool)

  datatype MarkerPhase = Prepared | OriginalMoved | Installed | Verified

  datatype Files = Files(
    primary: Option<Stored>,
    candidate: Option<Stored>,
    rollback: Option<Stored>,
    marker: Option<MarkerPhase>,
    backups: map<Path, Stored>,
    failed: seq<Stored>)

  /** What a run is given: the operator's passphrase and backup path, and what the disk does to it. */
  datatype Request = Request(
    pass: Passphrase,
    backup: Path,
    backupIntact: bool,      // a backup written by this run reads back intact
    candidateIntact: bool,
    failedTaken: bool)       // the name for a set-aside primary already exists

  datatype Error =
    | CannotUnlock | DidChanged | RecoveryNeedsBackup | RecoveryPassphrase | RolledBack
    | InvalidRollback | InvalidCandidate | ConflictingFiles | CannotRecover | DoesNotExist
    | RefusedToReplace | BackupUnavailable | BackupNotEncrypted

  /** The files after every operation of a run, in order, and how the run ended. */
  datatype Trace<+T> = Trace(states: seq<Files>, result: Result<T, Error>)

  datatype Recovered = Recovered(identity: Stored, recovered: bool)
  datatype Report = Report(did: Did, migrated: bool, recovered: bool)

  function Last(f: Files, states: seq<Files>): Files {
    if states == [] then f else states[|states| - 1]
  }

  function Unlock(file: Stored, pass: Passphrase): Option<Did> {
    if file.Sealed? && file.intact && file.pass == pass then Some(file.did) else None
  }

  function BackupAt(f: Files, path: Path): Option<Stored> {
    if path in f.backups then Some(f.backups[path]) else None
  }

  /** Reads an encrypted file and checks that it opens to exactly the expected DID. */
  function VerifyEncrypted(file: Stored, pass: Passphrase, did: Did): Result<(), Error> {
    var unlocked := Unlock(file, pass);
    if unlocked.None? then Err(CannotUnlock)
    else if unlocked.value != did then Err(DidChanged)
    else Ok(())
  }

  // ------------------------------------------------------------------- recovery

  function Recover(f: Files, r: Request): Trace<Recovered> {
    var recovered := f.candidate.Some? || f.rollback.Some? || f.marker.Some?;
    if f.primary.Some? && f.primary.value.Sealed? then
      var unlocked := Unlock(f.primary.value, r.pass);
      if unlocked.None? then RestoreRollback(f, r) else FinishInstalled(f, r, unlocked.value, recovered)
    else if f.primary.Some? then
      if f.rollback.Some? then Trace([], Err(ConflictingFiles))
      else
        Trace(if f.marker.Some? && f.candidate.None? then [f.(marker := None)] else [],
              Ok(Recovered(f.primary.value, recovered)))
    else if f.rollback.Some? && f.rollback.value.Plain? then ResumeMoved(f, r)
    else if f.candidate.Some? || f.marker.Some? then Trace([], Err(CannotRecover))
    else Trace([], Err(DoesNotExist))
  }

  /** The installed file does not open: put the plaintext original back if the backup proves the passphrase. */
  function RestoreRollback(f: Files, r: Request): Trace<Recovered>
    requires f.primary.Some?
  {
    if f.rollback.None? || !f.rollback.value.Plain? then Trace([], Err(CannotUnlock))
    else
      var backup := BackupAt(f, r.backup);
      if backup.None? || !backup.value.Sealed? then Trace([], Err(RecoveryNeedsBackup))
      else
        var unlocked := Unlock(backup.value, r.pass);
        if unlocked.None? then Trace([], Err(RecoveryPassphrase))
        else if unlocked.value != f.rollback.value.did then Trace([], Err(DidChanged))
        else if r.failedTaken then Trace([], Err(RefusedToReplace))
        else
          var s1 := f.(primary := None, failed := f.failed + [f.primary.value]);
          var s2 := s1.(primary := f.rollback, rollback := None);
          Trace([s1, s2, s2.(marker := None)], Err(RolledBack))
  }

  /** The installed file opens: every leftover must agree with it before it is removed. */
  function FinishInstalled(f: Files, r: Request, did: Did, recovered: bool): Trace<Recovered>
    requires f.primary.Some?
  {
    if f.rollback.Some? && !f.rollback.value.Plain? then Trace([], Err(InvalidRollback))
    else if f.rollback.Some? && f.rollback.value.did != did then Trace([], Err(DidChanged))
    else if f.candidate.Some? && !f.candidate.value.Sealed? then Trace([], Err(InvalidCandidate))
    else
      var agreed := if f.candidate.Some? then VerifyEncrypted(f.candidate.value, r.pass, did) else Ok(());
      if agreed.Err? then Trace([], Err(agreed.error))
      else
        var s1 := f.(rollback := None);
        var s2 := s1.(candidate := None);
        Trace([s1, s2, s2.(marker := None)], Ok(Recovered(f.primary.value, recovered)))
  }

  /** The original was moved away and nothing is installed yet: install the candidate, or move it back. */
  function ResumeMoved(f: Files, r: Request): Trace<Recovered>
    requires f.rollback.Some?
  {
    if f.candidate.None? then
      var s1 := f.(primary := f.rollback, rollback := None);
      Trace([s1, s1.(marker := None)], Ok(Recovered(f.rollback.value, true)))
    else if !f.candidate.value.Sealed? then Trace([], Err(InvalidCandidate))
    else
      var agreed := VerifyEncrypted(f.candidate.value, r.pass, f.rollback.value.did);
      if agreed.Err? then Trace([], Err(agreed.error))
      else
        var s1 := f.(primary := f.candidate, candidate := None);
        var s2 := s1.(rollback := None);
        Trace([s1, s2, s2.(marker := None)], Ok(Recovered(f.candidate.value, true)))
  }

  // ------------------------------------------------------------------ migration

  function Migrate(f: Files, r: Request): Trace<Report> {
    var rec := Recover(f, r);
    if rec.result.Err? then Trace(rec.states, Err(rec.result.error))
    else
      var rest := FromRecovered(Last(f, rec.states), r, rec.result.value);
      Trace(rec.states + rest.states, rest.result)
  }

  function FromRecovered(f: Files, r: Request, rec: Recovered): Trace<Report> {
    if rec.identity.Sealed? then Trace([], ConfirmBackup(f, r, rec))
    else
      var did := rec.identity.did;
      var backup := BackupStage(f, r, did);
      if backup.result.Err? then Trace(backup.states, Err(backup.result.error))
      else
        var candidate := CandidateStage(Last(f, backup.states), r, did);
        var states := backup.states + candidate.states;
        if candidate.result.Err? then Trace(states, Err(candidate.result.error))
        else
          var install := InstallStage(Last(f, states), r, did);
          Trace(states + install.states,
                if install.result.Err? then Err(install.result.error) else Ok(Report(did, true, rec.recovered)))
  }

  function ConfirmBackup(f: Files, r: Request, rec: Recovered): Result<Report, Error> {
    var backup := BackupAt(f, r.backup);
    if backup.None? || !backup.value.Sealed? then Err(BackupUnavailable)
    else
      var verified := VerifyEncrypted(backup.value, r.pass, rec.identity.did);
      if verified.Err? then Err(verified.error) else Ok(Report(rec.identity.did, false, rec.recovered))
  }

  function BackupStage(f: Files, r: Request, did: Did): Trace<()> {
    var existing := BackupAt(f, r.backup);
    if existing.Some? then
      if !existing.value.Sealed? then Trace([], Err(BackupNotEncrypted))
      else Trace([], VerifyEncrypted(existing.value, r.pass, did))
    else
      var written := Sealed(did, r.pass, r.backupIntact);
      Trace([f.(backups := f.backups[r.backup := written])], VerifyEncrypted(written, r.pass, did))
  }

  function CandidateStage(f: Files, r: Request, did: Did): Trace<()> {
    if f.candidate.Some? then
      if !f.candidate.value.Sealed? then Trace([], Err(InvalidCandidate))
      else Trace([], VerifyEncrypted(f.candidate.value, r.pass, did))
    else
      var written := Sealed(did, r.pass, r.candidateIntact);
      Trace([f.(candidate := Some(written))], VerifyEncrypted(written, r.pass, did))
  }

  /** Marker, move the original away, install the candidate, verify what is installed, clean up. */
  function InstallStage(f: Files, r: Request, did: Did): Trace<()> {
    var s1 := f.(marker := Some(Prepared));
    if f.rollback.Some? || f.primary.None? || f.candidate.None? then Trace([s1], Err(RefusedToReplace))
    else
      var s2 := s1.(primary := None, rollback := f.primary);
      var s3 := s2.(marker := Some(OriginalMoved));
      var s4 := s3.(primary := f.candidate, candidate := None);
      var s5 := s4.(marker := Some(Installed));
      var verified := VerifyEncrypted(f.candidate.value, r.pass, did);
      if verified.Err? then Trace([s1, s2, s3, s4, s5], verified)
      else
        var s6 := s5.(marker := Some(Verified));
        var s7 := s6.(rollback := None);
        Trace([s1, s2, s3, s4, s5, s6, s7, s7.(marker := None)], Ok(()))
  }

  // ------------------------------------------------------- crashed and repeated runs

  /** A run cut off by a crash after `cut` file operations. */
  datatype Attempt = Attempt(request: Request, cut: nat)

  function After(f: Files, a: Attempt): Files {
    var states := Migrate(f, a.request).states;
    Last(f, if a.cut <= |states| then states[..a.cut] else states)
  }

  function AfterAll(f: Files, runs: seq<Attempt>): Files {
    if runs == [] then f else After(AfterAll(f, runs[..|runs| - 1]), runs[|runs| - 1])
  }

  ghost function Passes(runs: seq<Attempt>): set<Passphrase> {
    set a | a in runs :: a.request.pass
  }

  /** One plaintext identity and nothing left over. Backup files may be anything. */
  predicate Fresh(f: Files, did: Did) {
    f.primary == Some(Plain(did)) && f.candidate.None? && f.rollback.None? && f.marker.None?
  }

  ghost predicate SealedUnder(o: Option<Stored>, did: Did, used: set<Passphrase>) {
    o.Some? && o.value.Sealed? && o.value.did == did && o.value.pass in used
  }

  /** The key can still be had: from a plaintext file, or from the installed file with a supplied passphrase. */
  ghost predicate KeySafe(f: Files, did: Did, used: set<Passphrase>) {
    || f.primary == Some(Plain(did))
    || f.rollback == Some(Plain(did))
    || (SealedUnder(f.primary, did, used) && Unlock(f.primary.value, f.primary.value.pass) == Some(did))
  }

  ghost predicate Inv(f: Files, did: Did, used: set<Passphrase>) {
    && (f.rollback.Some? ==> f.rollback.value == Plain(did))
    && (f.candidate.Some? ==> SealedUnder(f.candidate, did, used))
    && match f.primary
       case None => f.rollback.Some?
       case Some(Plain(d)) => d == did && f.rollback.None?
       case Some(Sealed(_, _, intact)) =>
         SealedUnder(f.primary, did, used) && f.candidate.None? && (f.rollback.None? ==> intact)
  }

  ghost predicate InvAlong(states: seq<Files>, did: Did, used: set<Passphrase>) {
    forall k | 0 <= k < |states| :: Inv(states[k], did, used)
  }

  lemma RecoverKeepsInv(f: Files, r: Request, did: Did, used: set<Passphrase>)
    requires Inv(f, did, used) && r.pass in used
    ensures InvAlong(Recover(f, r).states, did, used)
    ensures Recover(f, r).result.Ok? ==>
      var g := Last(f, Recover(f, r).states);
      && g.primary == Some(Recover(f, r).result.value.identity) && g.rollback.None? && Inv(g, did, used)
      && (g.primary.value == Plain(did) || Unlock(g.primary.value, r.pass) == Some(did))
  {
  }

  lemma StagesKeepInv(f: Files, r: Request, did: Did, used: set<Passphrase>)
    requires Inv(f, did, used) && r.pass in used && f.primary == Some(Plain(did))
    ensures InvAlong(BackupStage(f, r, did).states, did, used)
    ensures InvAlong(CandidateStage(f, r, did).states, did, used)
    ensures f.candidate.Some? && Unlock(f.candidate.value, r.pass) == Some(did) ==>
      InvAlong(InstallStage(f, r, did).states, did, used)
  {
  }

  lemma InvJoins(a: seq<Files>, b: seq<Files>, did: Did, used: set<Passphrase>)
    requires InvAlong(a, did, used) && InvAlong(b, did, used)
    ensures InvAlong(a + b, did, used)
  {
  }

  lemma MigrateKeepsInv(f: Files, r: Request, did: Did, used: set<Passphrase>)
    requires Inv(f, did, used) && r.pass in used
    ensures InvAlong(Migrate(f, r).states, did, used)
  {
    hide Recover, BackupStage, CandidateStage, InstallStage;
    RecoverKeepsInv(f, r, did, used);
    var rec := Recover(f, r);
    if rec.result.Ok? {
      var g := Last(f, rec.states);
      FromRecoveredKeepsInv(g, r, rec.result.value, did, used);
      InvJoins(rec.states, FromRecovered(g, r, rec.result.value).states, did, used);
    }
  }

  lemma FromRecoveredKeepsInv(f: Files, r: Request, rec: Recovered, did: Did, used: set<Passphrase>)
    requires Inv(f, did, used) && r.pass in used && f.primary == Some(rec.identity)
    ensures InvAlong(FromRecovered(f, r, rec).states, did, used)
  {
    if rec.identity.Plain? {
      StagesKeepInv(f, r, did, used);
      var f1 := Last(f, BackupStage(f, r, did).states);
      StagesKeepInv(f1, r, did, used);
      var f2 := Last(f1, CandidateStage(f1, r, did).states);
      StagesKeepInv(f2, r, did, used);
    }
  }

  lemma InvWidens(f: Files, did: Did, used: set<Passphrase>, more: set<Passphrase>)
    requires Inv(f, did, used) && used <= more
    ensures Inv(f, did, more)
  {
  }

  lemma {:induction false} InvAfterAll(f: Files, runs: seq<Attempt>, did: Did)
    requires Fresh(f, did)
    ensures Inv(AfterAll(f, runs), did, Passes(runs))
    decreases |runs|
  {
    if runs != [] {
      hide Migrate, Inv;
      var before, a := runs[..|runs| - 1], runs[|runs| - 1];
      InvAfterAll(f, before, did);
      InvWidens(AfterAll(f, before), did, Passes(before), Passes(runs));
      MigrateKeepsInv(AfterAll(f, before), a.request, did, Passes(runs));
    } else {
      assert AfterAll(f, runs) == f;
    }
  }

  /** Whatever passphrases the runs are given and wherever each of them stops, the key is not lost. */
  lemma {:induction false} KeyIsNeverLost(f: Files, runs: seq<Attempt>, did: Did)
    requires Fresh(f, did)
    ensures KeySafe(AfterAll(f, runs), did, Passes(runs))
  {
    InvAfterAll(f, runs, did);
  }

  // ------------------------------------------------- when the rollback may disappear

  /** From `a` to `b` the rollback is kept, or moved back, or dropped beside an installed file that opens. */
  ghost predicate RollbackAccounted(a: Files, b: Files, did: Did, pass: Passphrase) {
    a.rollback.Some? && b.rollback.None? ==>
      b.primary == a.rollback || (b.primary.Some? && Unlock(b.primary.value, pass) == Some(did))
  }

  /** The files just before operation `k`. */
  function Before(f: Files, states: seq<Files>, k: nat): Files
    requires k < |states|
  {
    if k == 0 then f else states[k - 1]
  }

  ghost predicate AccountedAlong(f: Files, states: seq<Files>, did: Did, pass: Passphrase) {
    forall k | 0 <= k < |states| :: RollbackAccounted(Before(f, states, k), states[k], did, pass)
  }

  lemma AccountedJoins(f: Files, a: seq<Files>, b: seq<Files>, did: Did, pass: Passphrase)
    requires AccountedAlong(f, a, did, pass) && AccountedAlong(Last(f, a), b, did, pass)
    ensures AccountedAlong(f, a + b, did, pass)
  {
    hide RollbackAccounted;
    forall k | 0 <= k < |a + b|
      ensures RollbackAccounted(Before(f, a + b, k), (a + b)[k], did, pass)
    {
      if k < |a| {
        assert Before(f, a + b, k) == Before(f, a, k);
      } else {
        assert Before(f, a + b, k) == Before(Last(f, a), b, k - |a|);
      }
    }
  }

  lemma PartsAccount(f: Files, r: Request, did: Did, used: set<Passphrase>)
    requires Inv(f, did, used)
    ensures AccountedAlong(f, Recover(f, r).states, did, r.pass)
    ensures f.primary == Some(Plain(did)) ==>
      && AccountedAlong(f, BackupStage(f, r, did).states, did, r.pass)
      && AccountedAlong(f, CandidateStage(f, r, did).states, did, r.pass)
      && AccountedAlong(f, InstallStage(f, r, did).states, did, r.pass)
  {
  }

  lemma FromRecoveredAccounts(f: Files, r: Request, rec: Recovered, did: Did, used: set<Passphrase>)
    requires Inv(f, did, used) && r.pass in used && f.primary == Some(rec.identity)
    ensures AccountedAlong(f, FromRecovered(f, r, rec).states, did, r.pass)
  {
    if rec.identity.Plain? {
      PartsAccount(f, r, did, used);
      StagesKeepInv(f, r, did, used);
      var backup := BackupStage(f, r, did);
      var f1 := Last(f, backup.states);
      PartsAccount(f1, r, did, used);
      StagesKeepInv(f1, r, did, used);
      var candidate := CandidateStage(f1, r, did);
      AccountedJoins(f, backup.states, candidate.states, did, r.pass);
      var states := backup.states + candidate.states;
      var f2 := Last(f1, candidate.states);
      assert Last(f, states) == f2;
      PartsAccount(f2, r, did, used);
      AccountedJoins(f, states, InstallStage(f2, r, did).states, did, r.pass);
    }
  }

  lemma RollbackDroppedOnlyWhenInstalled(f: Files, r: Request, did: Did, used: set<Passphrase>)
    requires Inv(f, did, used) && r.pass in used
    ensures AccountedAlong(f, Migrate(f, r).states, did, r.pass)
  {
    hide Recover, FromRecovered;
    RecoverKeepsInv(f, r, did, used);
    PartsAccount(f, r, did, used);
    var rec := Recover(f, r);
    if rec.result.Ok? {
      var g := Last(f, rec.states);
      FromRecoveredAccounts(g, r, rec.result.value, did, used);
      AccountedJoins(f, rec.states, FromRecovered(g, r, rec.result.value).states, did, r.pass);
    }
  }

  // ------------------------------------------------------------------ convergence

  predicate Stuck(e: Error, r: Request) {
    || e in {ConflictingFiles, CannotRecover, DoesNotExist, InvalidRollback, InvalidCandidate}
    || (e == RefusedToReplace && !r.failedTaken)
  }

  lemma RecoverIsNotStuck(f: Files, r: Request, did: Did, used: set<Passphrase>)
    requires Inv(f, did, used) && r.pass in used
    ensures Recover(f, r).result.Err? ==> !Stuck(Recover(f, r).result.error, r)
  {
  }

  lemma StagesAreNotStuck(f: Files, r: Request, rec: Recovered, did: Did, used: set<Passphrase>)
    requires Inv(f, did, used) && r.pass in used && f.primary == Some(rec.identity)
    requires f.rollback.None?
    ensures FromRecovered(f, r, rec).result.Err? ==> !Stuck(FromRecovered(f, r, rec).result.error, r)
  {
  }

  /** A run that finds what earlier crashed runs left never meets files it cannot explain. */
  lemma {:induction false} StuckBranchesUnreachable(f: Files, runs: seq<Attempt>, did: Did, r: Request)
    requires Fresh(f, did)
    ensures var result := Migrate(AfterAll(f, runs), r).result;
      result.Err? ==> !Stuck(result.error, r)
  {
    var g, used := AfterAll(f, runs), Passes(runs) + {r.pass};
    InvAfterAll(f, runs, did);
    InvWidens(g, did, Passes(runs), used);
    RecoverKeepsInv(g, r, did, used);
    RecoverIsNotStuck(g, r, did, used);
    hide Recover, FromRecovered;
    var rec := Recover(g, r);
    if rec.result.Ok? {
      StagesAreNotStuck(Last(g, rec.states), r, rec.result.value, did, used);
    }
  }

  /** The only end state of a successful migration. */
  predicate Final(f: Files, did: Did, r: Request) {
    && f.primary == Some(Sealed(did, r.pass, true))
    && BackupAt(f, r.backup) == Some(Sealed(did, r.pass, true))
    && f.candidate.None? && f.rollback.None? && f.marker.None?
  }

  predicate OpensIfSealed(o: Option<Stored>, pass: Passphrase, did: Did) {
    o.Some? && o.value.Sealed? ==> Unlock(o.value, pass) == Some(did)
  }

  /** The passphrase opens what is installed or staged, and the backup is there when it must be and opens. */
  predicate Ready(f: Files, did: Did, r: Request) {
    var installed := (f.primary.Some? && f.primary.value.Sealed?) || (f.primary.None? && f.candidate.Some?);
    && OpensIfSealed(f.primary, r.pass, did)
    && OpensIfSealed(f.candidate, r.pass, did)
    && (if r.backup in f.backups then Unlock(f.backups[r.backup], r.pass) == Some(did)
        else !installed && r.backupIntact)
    && (installed || f.candidate.Some? || r.candidateIntact)
  }

  lemma RecoverKeepsReady(f: Files, r: Request, did: Did, used: set<Passphrase>)
    requires Inv(f, did, used) && r.pass in used
    ensures Recover(f, r).result.Err? ==> !Ready(f, did, r)
    ensures Recover(f, r).result.Ok? ==>
      var g := Last(f, Recover(f, r).states);
      && (Ready(g, did, r) <==> Ready(f, did, r))
      && (g.primary.Some? && g.primary.value.Sealed? ==> g.marker.None? && g.candidate.None?)
  {
  }

  lemma StagesConverge(f: Files, r: Request, rec: Recovered, did: Did, used: set<Passphrase>)
    requires Inv(f, did, used) && r.pass in used && f.primary == Some(rec.identity) && rec.identity == Plain(did)
    ensures var t := FromRecovered(f, r, rec);
      (t.result.Ok? <==> Ready(f, did, r)) && (Ready(f, did, r) ==> Final(Last(f, t.states), did, r))
  {
    assert f.rollback.None?;
    hide Inv;
    var backup := BackupStage(f, r, did);
    var f1 := Last(f, backup.states);
    if backup.result.Ok? {
      var candidate := CandidateStage(f1, r, did);
      var f2 := Last(f1, candidate.states);
      assert Last(f, backup.states + candidate.states) == f2;
      if candidate.result.Ok? {
        assert BackupAt(f2, r.backup) == BackupAt(f1, r.backup);
        assert f2.candidate == Some(Sealed(did, r.pass, true));
        var install := InstallStage(f2, r, did);
        assert |install.states| == 8;
      }
    }
  }

  lemma ConfirmConverges(f: Files, r: Request, rec: Recovered, did: Did)
    requires f.primary == Some(rec.identity) && Unlock(rec.identity, r.pass) == Some(did)
    requires f.marker.None? && f.candidate.None? && f.rollback.None?
    ensures var t := FromRecovered(f, r, rec);
      && (t.result.Ok? <==> Ready(f, did, r)) && t.states == []
      && (Ready(f, did, r) ==> Final(f, did, r))
  {
  }

  /** A run that is not cut off succeeds exactly when it is ready, and then ends in the one final state. */
  lemma MigrateConverges(f: Files, r: Request, did: Did, used: set<Passphrase>)
    requires Inv(f, did, used) && r.pass in used
    ensures Migrate(f, r).result.Ok? <==> Ready(f, did, r)
    ensures Ready(f, did, r) ==> Final(Last(f, Migrate(f, r).states), did, r)
  {
    hide Recover, FromRecovered, Inv, Ready, Final;
    RecoverKeepsInv(f, r, did, used);
    RecoverKeepsReady(f, r, did, used);
    var rec := Recover(f, r);
    if rec.result.Ok? {
      var g := Last(f, rec.states);
      if g.primary == Some(Plain(did)) {
        StagesConverge(g, r, rec.result.value, did, used);
      } else {
        ConfirmConverges(g, r, rec.result.value, did);
      }
    }
  }

  // ------------------------------------------- a rerun that will succeed always exists

  ghost predicate BackedUp(f: Files, sealed: Stored, did: Did, runs: seq<Attempt>) {
    sealed.Sealed? && sealed.intact &&
    exists a :: a in runs && BackupAt(f, a.request.backup) == Some(Sealed(did, a.request.pass, true))
                && sealed.pass == a.request.pass
  }

  /** Everything staged or installed has a backup that some run was told of, sealed under the same passphrase. */
  ghost predicate Linked(f: Files, did: Did, runs: seq<Attempt>) {
    && (f.candidate.Some? ==> BackedUp(f, f.candidate.value, did, runs))
    && (f.primary.Some? && f.primary.value.Sealed? ==> BackedUp(f, f.primary.value, did, runs))
  }

  /** Every backup was there at the start or was written by one of the runs. */
  ghost predicate BackupsFrom(f: Files, start: Files, did: Did, runs: seq<Attempt>) {
    forall p | p in f.backups ::
      || (p in start.backups && f.backups[p] == start.backups[p])
      || exists a :: a in runs && a.request.backup == p && f.backups[p] == Sealed(did, a.request.pass, a.request.backupIntact)
  }

  ghost predicate AllIntact(runs: seq<Attempt>) {
    forall a | a in runs :: a.request.backupIntact && a.request.candidateIntact
  }

  ghost predicate Recoverable(f: Files, start: Files, did: Did, runs: seq<Attempt>) {
    Linked(f, did, runs) && BackupsFrom(f, start, did, runs)
  }

  ghost predicate RecoverableAlong(states: seq<Files>, start: Files, did: Did, runs: seq<Attempt>) {
    forall k | 0 <= k < |states| :: Recoverable(states[k], start, did, runs)
  }

  lemma RecoverableGrows(f: Files, start: Files, did: Did, runs: seq<Attempt>, a: Attempt)
    requires Recoverable(f, start, did, runs)
    ensures Recoverable(f, start, did, runs + [a])
  {
  }

  lemma RestoreKeepsRecoverable(f: Files, start: Files, did: Did, runs: seq<Attempt>, r: Request)
    requires Recoverable(f, start, did, runs) && f.primary.Some?
    ensures RecoverableAlong(RestoreRollback(f, r).states, start, did, runs)
    ensures f.primary.value.Sealed? ==>
      forall d, b :: RecoverableAlong(FinishInstalled(f, r, d, b).states, start, did, runs)
  {
    hide Unlock, VerifyEncrypted;
  }

  lemma ResumeKeepsRecoverable(f: Files, start: Files, did: Did, runs: seq<Attempt>, r: Request)
    requires Recoverable(f, start, did, runs) && f.rollback.Some? && f.rollback.value.Plain?
    ensures RecoverableAlong(ResumeMoved(f, r).states, start, did, runs)
  {
    hide Unlock, VerifyEncrypted;
  }

  lemma RecoverKeepsRecoverable(f: Files, start: Files, did: Did, runs: seq<Attempt>, r: Request)
    requires Recoverable(f, start, did, runs)
    ensures RecoverableAlong(Recover(f, r).states, start, did, runs)
  {
    hide RestoreRollback, FinishInstalled, ResumeMoved, Unlock;
    if f.primary.Some? {
      RestoreKeepsRecoverable(f, start, did, runs, r);
    } else if f.rollback.Some? && f.rollback.value.Plain? {
      ResumeKeepsRecoverable(f, start, did, runs, r);
    }
  }

  lemma BackupKeepsRecoverable(f: Files, start: Files, did: Did, runs: seq<Attempt>, a: Attempt)
    requires Recoverable(f, start, did, runs) && a in runs && a.request.backupIntact
    ensures RecoverableAlong(BackupStage(f, a.request, did).states, start, did, runs)
  {
    var r := a.request;
    if r.backup !in f.backups {
      var g := BackupStage(f, r, did).states[0];
      forall p | p in g.backups
        ensures (p in start.backups && g.backups[p] == start.backups[p])
          || exists b :: b in runs && b.request.backup == p && g.backups[p] == Sealed(did, b.request.pass, b.request.backupIntact)
      {
        if p == r.backup {
          assert g.backups[p] == Sealed(did, a.request.pass, a.request.backupIntact);
        }
      }
    }
  }

  lemma InstallKeepsRecoverable(f: Files, start: Files, did: Did, runs: seq<Attempt>, a: Attempt)
    requires Recoverable(f, start, did, runs) && a in runs && a.request.candidateIntact
    requires BackupAt(f, a.request.backup) == Some(Sealed(did, a.request.pass, true))
    ensures RecoverableAlong(CandidateStage(f, a.request, did).states, start, did, runs)
    ensures RecoverableAlong(InstallStage(f, a.request, did).states, start, did, runs)
  {
    hide VerifyEncrypted, BackupsFrom;
    forall g: Files | g.backups == f.backups
      ensures BackupsFrom(g, start, did, runs)
    {
      SameBackups(f, g, start, did, runs);
    }
    if f.candidate.Some? {
      assert f.candidate.value.Sealed?;
    }
  }

  lemma SameBackups(f: Files, g: Files, start: Files, did: Did, runs: seq<Attempt>)
    requires BackupsFrom(f, start, did, runs) && g.backups == f.backups
    ensures BackupsFrom(g, start, did, runs)
  {
  }

  lemma StagesKeepRecoverable(f: Files, start: Files, did: Did, runs: seq<Attempt>, a: Attempt, rec: Recovered)
    requires Recoverable(f, start, did, runs) && a in runs && a.request.candidateIntact && a.request.backupIntact
    requires rec.identity.Plain? ==> rec.identity.did == did
    ensures RecoverableAlong(FromRecovered(f, a.request, rec).states, start, did, runs)
  {
    if rec.identity.Plain? {
      var backup := BackupStage(f, a.request, did);
      var f1 := Last(f, backup.states);
      BackupKeepsRecoverable(f, start, did, runs, a);
      if backup.result.Ok? {
        assert BackupAt(f1, a.request.backup) == Some(Sealed(did, a.request.pass, true));
        InstallKeepsRecoverable(f1, start, did, runs, a);
        var f2 := Last(f1, CandidateStage(f1, a.request, did).states);
        assert f2 == Last(f, backup.states + CandidateStage(f1, a.request, did).states);
        InstallKeepsRecoverable(f2, start, did, runs, a);
        hide Recoverable, BackupStage, CandidateStage, InstallStage;
      }
    }
  }

  lemma MigrateKeepsRecoverable(f: Files, start: Files, did: Did, runs: seq<Attempt>, a: Attempt, used: set<Passphrase>)
    requires Recoverable(f, start, did, runs) && a in runs && a.request.candidateIntact && a.request.backupIntact
    requires Inv(f, did, used) && a.request.pass in used
    ensures RecoverableAlong(Migrate(f, a.request).states, start, did, runs)
  {
    hide Recoverable, FromRecovered;
    RecoverKeepsRecoverable(f, start, did, runs, a.request);
    RecoverKeepsInv(f, a.request, did, used);
    var rec := Recover(f, a.request);
    if rec.result.Ok? {
      hide Recover;
      StagesKeepRecoverable(Last(f, rec.states), start, did, runs, a, rec.result.value);
    }
  }

  lemma FreshIsRecoverable(f: Files, did: Did)
    requires Fresh(f, did)
    ensures Recoverable(f, f, did, [])
  {
  }

  lemma AfterKeepsRecoverable(f: Files, start: Files, did: Did, runs: seq<Attempt>, a: Attempt)
    requires Recoverable(f, start, did, runs) && RecoverableAlong(Migrate(f, a.request).states, start, did, runs)
    ensures Recoverable(After(f, a), start, did, runs)
  {
    hide Migrate, Recoverable;
  }

  lemma {:induction false} RecoverableAfterAll(f: Files, runs: seq<Attempt>, did: Did)
    requires Fresh(f, did) && AllIntact(runs)
    ensures Recoverable(AfterAll(f, runs), f, did, runs)
    decreases |runs|
  {
    hide Migrate, Inv, Recoverable, After;
    if runs == [] {
      FreshIsRecoverable(f, did);
    } else {
      var before, a := runs[..|runs| - 1], runs[|runs| - 1];
      var g := AfterAll(f, before);
      RecoverableAfterAll(f, before, did);
      assert runs == before + [a];
      RecoverableGrows(g, f, did, before, a);
      InvAfterAll(f, before, did);
      InvWidens(g, did, Passes(before), Passes(runs));
      MigrateKeepsRecoverable(g, f, did, runs, a, Passes(runs));
      AfterKeepsRecoverable(g, f, did, runs, a);
    }
  }

  /**
   Whatever crashes came before, once a sealed file is staged or installed one of the earlier
   requests, repeated, runs to the final state.
   */
  lemma SomeEarlierRequestConverges(f: Files, runs: seq<Attempt>, did: Did) returns (a: Attempt)
    requires Fresh(f, did) && AllIntact(runs)
    requires var g := AfterAll(f, runs); g.candidate.Some? || (g.primary.Some? && g.primary.value.Sealed?)
    ensures a in runs && Ready(AfterAll(f, runs), did, a.request)
    ensures Final(Last(AfterAll(f, runs), Migrate(AfterAll(f, runs), a.request).states), did, a.request)
  {
    var g := AfterAll(f, runs);
    RecoverableAfterAll(f, runs, did);
    InvAfterAll(f, runs, did);
    var sealed := if g.candidate.Some? then g.candidate.value else g.primary.value;
    a :| a in runs && BackupAt(g, a.request.backup) == Some(Sealed(did, a.request.pass, true))
         && sealed.pass == a.request.pass;
    MigrateConverges(g, a.request, did, Passes(runs));
    hide Migrate;
    assert Ready(g, did, a.request);
  }

  /** An operator who gives every run the same passphrase and the same new backup path always gets there. */
  lemma {:induction false} SteadyOperatorConverges(f: Files, runs: seq<Attempt>, did: Did, r: Request)
    requires Fresh(f, did) && AllIntact(runs) && r.backupIntact && r.candidateIntact && r.backup !in f.backups
    requires forall a | a in runs :: a.request.pass == r.pass && a.request.backup == r.backup
    ensures Migrate(AfterAll(f, runs), r).result.Ok?
    ensures Final(Last(AfterAll(f, runs), Migrate(AfterAll(f, runs), r).states), did, r)
  {
    var g, used := AfterAll(f, runs), Passes(runs) + {r.pass};
    RecoverableAfterAll(f, runs, did);
    InvAfterAll(f, runs, did);
    InvWidens(g, did, Passes(runs), used);
    MigrateConverges(g, r, did, used);
    hide Migrate;
    assert Ready(g, did, r);
  }

  // ------------------------------------------------------------------ the store itself

  /** The files of one identity, changed one operation at a time; `history` records every state on disk. */
  class IdentityFiles {
    var primary: Option<Stored>
    var candidate: Option<Stored>
    var rollback: Option<Stored>
    var marker: Option<MarkerPhase>
    var backups: map<Path, Stored>
    var failed: seq<Stored>
    ghost var history: seq<Files>

    constructor (f: Files)
      ensures Snapshot() == f && history == []
    {
      primary, candidate, rollback, marker := f.primary, f.candidate, f.rollback, f.marker;
      backups, failed, history := f.backups, f.failed, [];
    }

    ghost function Snapshot(): Files
      reads this
    {
      Files(primary, candidate, rollback, marker, backups, failed)
    }

    /** What `states` did to the disk, with `before` the disk as it was. */
    ghost predicate Went(before: Files, past: seq<Files>, states: seq<Files>)
      reads this
    {
      history == past + states && Snapshot() == Last(before, states)
    }

    method RemoveLeftovers()
      modifies this
      ensures primary == old(primary) && backups == old(backups) && failed == old(failed)
      ensures var s1 := old(Snapshot()).(rollback := None); var s2 := s1.(candidate := None);
        Went(old(Snapshot()), old(history), [s1, s2, s2.(marker := None)])
    {
      rollback := None;
      history := history + [Snapshot()];
      candidate := None;
      history := history + [Snapshot()];
      marker := None;
      history := history + [Snapshot()];
    }

    method RestorePlaintext(r: Request) returns (error: Error)
      requires primary.Some?
      modifies this
      ensures var t := RestoreRollback(old(Snapshot()), r);
        Went(old(Snapshot()), old(history), t.states) && t.result == Err(error)
    {
      if rollback.None? || !rollback.value.Plain? { return CannotUnlock; }
      if r.backup !in backups || !backups[r.backup].Sealed? { return RecoveryNeedsBackup; }
      var unsealed := Unlock(backups[r.backup], r.pass);
      if unsealed.None? { return RecoveryPassphrase; }
      if unsealed.value != rollback.value.did { return DidChanged; }
      if r.failedTaken { return RefusedToReplace; }
      failed, primary := failed + [primary.value], None;
      history := history + [Snapshot()];
      primary, rollback := rollback, None;
      history := history + [Snapshot()];
      marker := None;
      history := history + [Snapshot()];
      error := RolledBack;
    }

    method ResumeMovedOriginal(r: Request) returns (result: Result<Recovered, Error>)
      requires rollback.Some?
      modifies this
      ensures var t := ResumeMoved(old(Snapshot()), r);
        Went(old(Snapshot()), old(history), t.states) && result == t.result
    {
      if candidate.None? {
        primary, rollback := rollback, None;
        history := history + [Snapshot()];
        marker := None;
        history := history + [Snapshot()];
        return Ok(Recovered(primary.value, true));
      }
      if candidate.value.Plain? { return Err(InvalidCandidate); }
      var agreed := VerifyEncrypted(candidate.value, r.pass, rollback.value.did);
      if agreed.Err? { return Err(agreed.error); }
      primary, candidate := candidate, None;
      history := history + [Snapshot()];
      rollback := None;
      history := history + [Snapshot()];
      marker := None;
      history := history + [Snapshot()];
      result := Ok(Recovered(primary.value, true));
    }

    method RecoverLocked(r: Request) returns (result: Result<Recovered, Error>)
      modifies this
      ensures var t := Recover(old(Snapshot()), r);
        Went(old(Snapshot()), old(history), t.states) && result == t.result
    {
      var recovered := candidate.Some? || rollback.Some? || marker.Some?;
      if primary.Some? && primary.value.Sealed? {
        var unlocked := Unlock(primary.value, r.pass);
        if unlocked.None? {
          var error := RestorePlaintext(r);
          return Err(error);
        }
        if rollback.Some? {
          if rollback.value.Sealed? { return Err(InvalidRollback); }
          if rollback.value.did != unlocked.value { return Err(DidChanged); }
        }
        if candidate.Some? {
          if candidate.value.Plain? { return Err(InvalidCandidate); }
          var agreed := VerifyEncrypted(candidate.value, r.pass, unlocked.value);
          if agreed.Err? { return Err(agreed.error); }
        }
        RemoveLeftovers();
        return Ok(Recovered(primary.value, recovered));
      }
      if primary.Some? {
        if rollback.Some? { return Err(ConflictingFiles); }
        if marker.Some? && candidate.None? {
          marker := None;
          history := history + [Snapshot()];
        }
        return Ok(Recovered(primary.value, recovered));
      }
      if rollback.Some? && rollback.value.Plain? {
        result := ResumeMovedOriginal(r);
        return;
      }
      if candidate.Some? || marker.Some? { return Err(CannotRecover); }
      result := Err(DoesNotExist);
    }

    method WriteBackup(r: Request, did: Did) returns (result: Result<(), Error>)
      modifies this
      ensures var t := BackupStage(old(Snapshot()), r, did);
        Went(old(Snapshot()), old(history), t.states) && result == t.result
    {
      if r.backup in backups {
        if backups[r.backup].Plain? { return Err(BackupNotEncrypted); }
      } else {
        backups := backups[r.backup := Sealed(did, r.pass, r.backupIntact)];
        history := history + [Snapshot()];
      }
      result := VerifyEncrypted(backups[r.backup], r.pass, did);
    }

    method WriteCandidate(r: Request, did: Did) returns (result: Result<(), Error>)
      modifies this
      ensures var t := CandidateStage(old(Snapshot()), r, did);
        Went(old(Snapshot()), old(history), t.states) && result == t.result
    {
      if candidate.Some? {
        if candidate.value.Plain? { return Err(InvalidCandidate); }
      } else {
        candidate := Some(Sealed(did, r.pass, r.candidateIntact));
        history := history + [Snapshot()];
      }
      result := VerifyEncrypted(candidate.value, r.pass, did);
    }

    method WriteMarker(phase: MarkerPhase)
      modifies this`marker, this`history
      ensures marker == Some(phase) && history == old(history) + [Snapshot()]
    {
      marker := Some(phase);
      history := history + [Snapshot()];
    }

    method Install(r: Request, did: Did) returns (result: Result<(), Error>)
      modifies this
      ensures var t := InstallStage(old(Snapshot()), r, did);
        Went(old(Snapshot()), old(history), t.states) && result == t.result
    {
      WriteMarker(Prepared);
      if rollback.Some? || primary.None? || candidate.None? { return Err(RefusedToReplace); }
      rollback, primary := primary, None;
      history := history + [Snapshot()];
      WriteMarker(OriginalMoved);
      primary, candidate := candidate, None;
      history := history + [Snapshot()];
      WriteMarker(Installed);
      result := VerifyEncrypted(primary.value, r.pass, did);
      if result.Err? { return; }
      WriteMarker(Verified);
      rollback := None;
      history := history + [Snapshot()];
      marker := None;
      history := history + [Snapshot()];
    }

    method EncryptPlaintext(r: Request, rec: Recovered) returns (result: Result<Report, Error>)
      requires rec.identity.Plain?
      modifies this
      ensures var t := FromRecovered(old(Snapshot()), r, rec);
        Went(old(Snapshot()), old(history), t.states) && result == t.result
    {
      hide BackupStage, CandidateStage, InstallStage;
      var did := rec.identity.did;
      var stage := WriteBackup(r, did);
      if stage.Err? { return Err(stage.error); }
      stage := WriteCandidate(r, did);
      if stage.Err? { return Err(stage.error); }
      stage := Install(r, did);
      result := if stage.Err? then Err(stage.error) else Ok(Report(did, true, rec.recovered));
    }

    method MigrateIdentity(r: Request) returns (result: Result<Report, Error>)
      modifies this
      ensures var t := Migrate(old(Snapshot()), r);
        Went(old(Snapshot()), old(history), t.states) && result == t.result
    {
      hide Recover, BackupStage, CandidateStage, InstallStage, VerifyEncrypted;
      var recovery := RecoverLocked(r);
      if recovery.Err? { return Err(recovery.error); }
      var identity := recovery.value.identity;
      if identity.Plain? {
        result := EncryptPlaintext(r, recovery.value);
        return;
      }
      if r.backup !in backups || backups[r.backup].Plain? { return Err(BackupUnavailable); }
      var checked := VerifyEncrypted(backups[r.backup], r.pass, identity.did);
      result := if checked.Err? then Err(checked.error)
                else Ok(Report(identity.did, false, recovery.value.recovered));
    }
  }
}
