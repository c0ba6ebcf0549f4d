/** How each migration run ends, and which files it touches, in every state that crashed runs can leave. */
module MigrationOutcomes {
  import opened Wrappers
  import opened Migration

  predicate Opens(o: Option<Stored>, pass: Passphrase, did: Did) {
    o.Some? && Unlock(o.value, pass) == Some(did)
  }

  /** Why a file that should be an encrypted copy of this identity is not accepted. */
  predicate Refused(o: Option<Stored>, pass: Passphrase, did: Did, e: Error) {
    && o.Some? && o.value.Sealed?
    && (e == CannotUnlock <==> !o.value.intact || o.value.pass != pass)
    && (e == DidChanged <==> o.value.intact && o.value.pass == pass && o.value.did != did)
  }

  // --------------------------------------------------------- the installed file does not open

  /** The plaintext may be put back over an installed file: it is there, the backup proves the passphrase, the name is free. */
  predicate MayRestore(f: Files, r: Request, did: Did) {
    f.rollback == Some(Plain(did)) && Opens(BackupAt(f, r.backup), r.pass, did) && !r.failedTaken
  }

  /**
   A passphrase that does not open the installed file touches nothing, unless the backup at the given path opens
   under it to the original identity; only then is the plaintext put back, and the file set aside. Every refusal
   says why.
   */
  lemma WrongPassphraseDecides(f: Files, r: Request, did: Did, used: set<Passphrase>)
    requires Inv(f, did, used) && f.primary.Some? && f.primary.value.Sealed? && !Opens(f.primary, r.pass, did)
    ensures var t, backup := Migrate(f, r), BackupAt(f, r.backup);
      && t.result.Err?
      && (t.states != [] <==> MayRestore(f, r, did))
      && (t.states != [] ==>
            && t.result.error == RolledBack
            && Last(f, t.states) == f.(primary := Some(Plain(did)), rollback := None, marker := None, failed := f.failed + [f.primary.value]))
      && (t.result.error == CannotUnlock <==> f.rollback.None?)
      && (t.result.error == RecoveryNeedsBackup <==> f.rollback.Some? && (backup.None? || backup.value.Plain?))
      && (t.result.error == RecoveryPassphrase <==>
            f.rollback.Some? && backup.Some? && backup.value.Sealed? && Unlock(backup.value, r.pass).None?)
      && (t.result.error == DidChanged <==>
            f.rollback.Some? && backup.Some? && backup.value.Sealed? && Unlock(backup.value, r.pass).Some? && !Opens(backup, r.pass, did))
      && (t.result.error == RefusedToReplace <==> f.rollback.Some? && Opens(backup, r.pass, did) && r.failedTaken)
  {
  }

  /** Over an installed file the plaintext comes back exactly when the file does not open and it may be put back. */
  lemma PlaintextReturnsIff(f: Files, r: Request, did: Did, used: set<Passphrase>)
    requires Inv(f, did, used) && r.pass in used && f.primary.Some? && f.primary.value.Sealed?
    ensures (exists k :: 0 <= k < |Migrate(f, r).states| && Migrate(f, r).states[k].primary == Some(Plain(did)))
      <==> !Opens(f.primary, r.pass, did) && MayRestore(f, r, did)
  {
    var states := Migrate(f, r).states;
    if Opens(f.primary, r.pass, did) {
      InstalledDecides(f, r, did, used);
      assert forall k | 0 <= k < |states| :: states[k].primary == f.primary;
    } else {
      WrongPassphraseDecides(f, r, did, used);
      if states != [] {
        assert states[|states| - 1].primary == Some(Plain(did));
      }
    }
  }

  // ---------------------------------------------------------------- the installed file opens

  /** With the installed file open, leftovers go and the run is as good as the backup at the given path. */
  lemma InstalledDecides(f: Files, r: Request, did: Did, used: set<Passphrase>)
    requires Inv(f, did, used) && f.primary.Some? && f.primary.value.Sealed? && Opens(f.primary, r.pass, did)
    ensures var t, backup := Migrate(f, r), BackupAt(f, r.backup);
      && Last(f, t.states) == f.(rollback := None, candidate := None, marker := None)
      && (forall k | 0 <= k < |t.states| :: t.states[k].primary == f.primary && t.states[k].backups == f.backups)
      && (t.result.Ok? <==> Opens(backup, r.pass, did))
      && (t.result.Ok? ==> t.result.value == Report(did, false, f.candidate.Some? || f.rollback.Some? || f.marker.Some?))
      && (t.result == Err(BackupUnavailable) <==> backup.None? || backup.value.Plain?)
      && (t.result.Err? && t.result.error != BackupUnavailable ==> Refused(backup, r.pass, did, t.result.error))
  {
  }

  // ------------------------------------------------------------- nothing is installed yet

  /** The original was moved away: the candidate is installed if it opens, and without one the original comes back. */
  lemma MovedDecides(f: Files, r: Request, did: Did, used: set<Passphrase>)
    requires Inv(f, did, used) && f.primary.None?
    ensures var t := Recover(f, r);
      && (t.result.Err? <==> f.candidate.Some? && !Opens(f.candidate, r.pass, did))
      && (t.result.Err? ==> t.states == [] && Migrate(f, r).states == [] && Refused(f.candidate, r.pass, did, t.result.error))
      && (t.result.Ok? ==>
            && t.result.value.recovered
            && Last(f, t.states) == f.(primary := if f.candidate.Some? then f.candidate else Some(Plain(did)),
                                       candidate := None, rollback := None, marker := None))
  {
  }

  /** A plaintext primary: a stale marker goes, everything else stays. */
  lemma PlainRecovers(f: Files, r: Request, did: Did, used: set<Passphrase>)
    requires Inv(f, did, used) && f.primary == Some(Plain(did))
    ensures var t := Recover(f, r);
      && t.result == Ok(Recovered(Plain(did), f.candidate.Some? || f.marker.Some?))
      && Last(f, t.states) == if f.candidate.None? then f.(marker := None) else f
  {
  }

  /** What the two encrypted copies must be before the original is touched. */
  predicate CopiesOpen(f: Files, r: Request, did: Did) {
    && (if r.backup in f.backups then Opens(BackupAt(f, r.backup), r.pass, did) else r.backupIntact)
    && (if f.candidate.Some? then Opens(f.candidate, r.pass, did) else r.candidateIntact)
  }

  /**
   From a plaintext primary: the original is moved exactly when both copies open, an existing copy is never replaced,
   and a refusal leaves the original in place and says which copy was wrong.
   */
  lemma PlainDecides(f: Files, r: Request, did: Did, used: set<Passphrase>)
    requires Inv(f, did, used) && r.pass in used && f.primary == Some(Plain(did))
    ensures var t := Migrate(f, r); var e := Last(f, t.states);
      && (t.result.Ok? <==> CopiesOpen(f, r, did))
      && (t.result.Ok? ==> t.result.value == Report(did, true, f.candidate.Some? || f.marker.Some?))
      && (t.result.Err? ==> e.primary == f.primary && e.rollback.None?)
      && (forall p | p in f.backups :: p in e.backups && e.backups[p] == f.backups[p])
      && (forall p | p in e.backups && p !in f.backups :: p == r.backup && e.backups[p] == Sealed(did, r.pass, r.backupIntact))
      && (t.result == Err(BackupNotEncrypted) <==> r.backup in f.backups && f.backups[r.backup].Plain?)
      && (t.result.Err? && r.backup in f.backups && f.backups[r.backup].Sealed? && !Opens(BackupAt(f, r.backup), r.pass, did) ==>
            Refused(BackupAt(f, r.backup), r.pass, did, t.result.error))
      && (f.candidate.Some? && t.result.Err? ==> e.candidate == f.candidate)
  {
    PlainRecovers(f, r, did, used);
    RecoverKeepsInv(f, r, did, used);
    hide Recover;
    var g := Last(f, Recover(f, r).states);
    StagesDecide(g, r, did, used, Recover(f, r).result.value);
  }

  lemma StagesDecide(f: Files, r: Request, did: Did, used: set<Passphrase>, rec: Recovered)
    requires Inv(f, did, used) && r.pass in used && f.primary == Some(Plain(did)) && rec.identity == Plain(did)
    ensures var t := FromRecovered(f, r, rec); var e := Last(f, t.states);
      && (t.result.Ok? <==> CopiesOpen(f, r, did))
      && (t.result.Ok? ==> t.result.value == Report(did, true, rec.recovered))
      && (t.result.Err? ==> e.primary == f.primary && e.rollback.None?)
      && (forall p | p in f.backups :: p in e.backups && e.backups[p] == f.backups[p])
      && (forall p | p in e.backups && p !in f.backups :: p == r.backup && e.backups[p] == Sealed(did, r.pass, r.backupIntact))
      && (t.result == Err(BackupNotEncrypted) <==> r.backup in f.backups && f.backups[r.backup].Plain?)
      && (t.result.Err? && r.backup in f.backups && f.backups[r.backup].Sealed? && !Opens(BackupAt(f, r.backup), r.pass, did) ==>
            Refused(BackupAt(f, r.backup), r.pass, did, t.result.error))
      && (f.candidate.Some? && t.result.Err? ==> e.candidate == f.candidate)
  {
    hide Inv, InstallStage, BackupStage, CandidateStage, Refused;
    PlainHasNoRollback(f, did, used);
    BackupDecides(f, r, did);
    var backup := BackupStage(f, r, did);
    var f1 := Last(f, backup.states);
    if backup.result.Ok? {
      CandidateDecides(f1, r, did);
      var candidate := CandidateStage(f1, r, did);
      var f2 := Last(f1, candidate.states);
      assert Last(f, backup.states + candidate.states) == f2;
      if candidate.result.Ok? {
        InstallDecides(f2, r, did);
      }
    }
  }

  lemma PlainHasNoRollback(f: Files, did: Did, used: set<Passphrase>)
    requires Inv(f, did, used) && f.primary == Some(Plain(did))
    ensures f.rollback.None? && (f.candidate.Some? ==> f.candidate.value.Sealed?)
  {
  }

  lemma BackupDecides(f: Files, r: Request, did: Did)
    ensures var t := BackupStage(f, r, did);
      && (t.result.Ok? <==> if r.backup in f.backups then Opens(BackupAt(f, r.backup), r.pass, did) else r.backupIntact)
      && Last(f, t.states) ==
           (if r.backup in f.backups then f else f.(backups := f.backups[r.backup := Sealed(did, r.pass, r.backupIntact)]))
      && (t.result == Err(BackupNotEncrypted) <==> r.backup in f.backups && f.backups[r.backup].Plain?)
      && (t.result.Err? && r.backup in f.backups && f.backups[r.backup].Sealed? ==>
            Refused(BackupAt(f, r.backup), r.pass, did, t.result.error))
  {
  }

  lemma CandidateDecides(f: Files, r: Request, did: Did)
    requires f.candidate.Some? ==> f.candidate.value.Sealed?
    ensures var t := CandidateStage(f, r, did); var e := Last(f, t.states);
      && (t.result.Ok? <==> if f.candidate.Some? then Opens(f.candidate, r.pass, did) else r.candidateIntact)
      && e == (if f.candidate.Some? then f else f.(candidate := Some(Sealed(did, r.pass, r.candidateIntact))))
      && (t.result.Ok? ==> Opens(e.candidate, r.pass, did))
      && t.result != Err(BackupNotEncrypted)
  {
  }

  /** Installing what opens succeeds and leaves only the encrypted primary. */
  lemma InstallDecides(f: Files, r: Request, did: Did)
    requires f.primary == Some(Plain(did)) && f.rollback.None? && Opens(f.candidate, r.pass, did)
    ensures var t := InstallStage(f, r, did);
      t.result.Ok? && t.states != []
      && Last(f, t.states) == f.(primary := f.candidate, candidate := None, rollback := None, marker := None)
  {
  }

  /** While installing, the marker says how far it got: what it names has happened, and the original is kept until it is verified. */
  lemma MarkerTellsHowFar(f: Files, r: Request, did: Did, k: nat)
    requires f.primary == Some(Plain(did)) && f.rollback.None? && Opens(f.candidate, r.pass, did)
    requires k < |InstallStage(f, r, did).states|
    ensures var s := InstallStage(f, r, did).states[k];
      && (s.marker == Some(Prepared) ==> s.candidate == f.candidate && (s.primary == f.primary || s.rollback == f.primary))
      && (s.marker == Some(OriginalMoved) ==> s.rollback == f.primary && (s.candidate == f.candidate || s.primary == f.candidate))
      && (s.marker == Some(Installed) ==> s.rollback == f.primary && s.primary == f.candidate)
      && (s.marker == Some(Verified) || s.marker.None? ==> Opens(s.primary, r.pass, did))
      && (s.rollback.None? && s.primary != f.primary ==> Opens(s.primary, r.pass, did))
  {
  }

  // --------------------------------------------------------------------- refusals, together

  /** A recovery that refuses has performed no file operation, except the one that put the plaintext back. */
  lemma RefusalPreserves(f: Files, r: Request, did: Did, used: set<Passphrase>)
    requires Inv(f, did, used) && Recover(f, r).result.Err?
    ensures Migrate(f, r).states == Recover(f, r).states && Migrate(f, r).result == Err(Recover(f, r).result.error)
    ensures Recover(f, r).states == [] <==> Recover(f, r).result.error != RolledBack
  {
    assert Recover(f, r).states + [] == Recover(f, r).states;
  }
}
