/** Counters that stay exact through the relay and both repairs, and repairs that happen once. */
module RehearsalSafety {
  import opened Wrappers
  import opened Rehearsal

  predicate Posted(s: Status) {
    s.PostIntent? || s.Sent? || s.SentReconciled? || s.GetIntent? || s.Received?
  }

  predicate Gotten(s: Status) {
    s.GetIntent? || s.Received?
  }

  /** One POST per finished step and one for the current step once its intent is saved; likewise for GETs. */
  predicate Counted(m: Main)
    requires |m.steps| == STEPS
  {
    && m.posts == m.index + (if m.index < STEPS && Posted(m.steps[m.index].status) then 1 else 0)
    && m.gets == m.index + (if m.index < STEPS && Gotten(m.steps[m.index].status) then 1 else 0)
  }

  ghost predicate MainFits(m: Main) {
    && ValidMain(m) && Expected(m) && Counted(m)
    && (m.complete ==> m.index == STEPS)
    && m.halted != Some(UnexpectedStep) && m.halted != Some(BudgetExhausted)
  }

  ghost predicate Inv(d: Disk) {
    match d.main
    case None => d.postsMade == 0 && d.getsMade == 0
    case Some(m) => MainFits(m) && d.postsMade <= m.posts && d.getsMade <= m.gets
  }

  /** Finished steps and recorded repairs never change, and nothing is counted back. */
  ghost predicate MainLater(m: Main, n: Main) {
    && |m.steps| == |n.steps| && m.index <= n.index && m.posts <= n.posts && m.gets <= n.gets && (m.complete ==> n.complete)
    && (forall i | 0 <= i < |m.steps| && i < m.index :: n.steps[i] == m.steps[i])
    && (forall i | 0 <= i < |m.steps| && m.steps[i].sendRecovery.Some? :: n.steps[i].sendRecovery == m.steps[i].sendRecovery)
  }

  ghost predicate Later(a: Disk, b: Disk) {
    && (a.main.Some? ==> b.main.Some? && MainLater(a.main.value, b.main.value))
    && a.postsMade <= b.postsMade && a.getsMade <= b.getsMade
  }

  ghost predicate Moves(a: Disk, b: Disk) {
    && Later(a, b)
    // A request leaves only while its own saved intent is the current one.
    && (b.postsMade > a.postsMade ==>
          b.postsMade == a.postsMade + 1 && b.main == a.main && a.main.Some?
          && a.main.value.index < |a.main.value.steps| && Current(a.main.value).status.PostIntent? && a.main.value.halted.None?)
    && (b.getsMade > a.getsMade ==>
          b.getsMade == a.getsMade + 1 && b.main == a.main && a.main.Some?
          && a.main.value.index < |a.main.value.steps| && Current(a.main.value).status.GetIntent? && a.main.value.halted.None?)
  }

  function Before(d: Disk, states: seq<Disk>, k: nat): Disk
    requires k < |states|
  {
    if k == 0 then d else states[k - 1]
  }

  ghost predicate Sound(d: Disk, states: seq<Disk>) {
    forall k | 0 <= k < |states| :: Inv(states[k]) && Moves(Before(d, states, k), states[k])
  }

  lemma SoundJoins(d: Disk, a: seq<Disk>, b: seq<Disk>)
    requires Sound(d, a) && Sound(Last(d, a), b)
    ensures Sound(d, a + b)
  {
    hide Inv, Moves;
    forall k | 0 <= k < |a + b|
      ensures Inv((a + b)[k]) && Moves(Before(d, a + b, k), (a + b)[k])
    {
      if k < |a| {
        assert Before(d, a + b, k) == Before(d, a, k);
      } else {
        assert Before(d, a + b, k) == Before(Last(d, a), b, k - |a|);
      }
    }
  }

  lemma LastSound(d: Disk, states: seq<Disk>)
    requires Inv(d) && Sound(d, states)
    ensures Inv(Last(d, states))
  {
    hide Inv, Moves;
  }

  // --------------------------------------------------------------------- the relay

  /** Only the current step changes, to another status that it may have. */
  lemma ExpectedStays(m: Main, n: Main)
    requires Expected(m) && |n.steps| == |m.steps| && n.index == m.index
    requires forall i | 0 <= i < |m.steps| && i != m.index :: n.steps[i] == m.steps[i]
    requires m.index < |m.steps| ==> Workable(n.steps[m.index].status)
    ensures Expected(n)
  {
    forall i | 0 <= i < |n.steps|
      ensures ExpectedStep(n, i)
    {
      assert ExpectedStep(m, i);
    }
  }

  lemma CurrentIsWorkable(m: Main)
    requires Expected(m) && m.index < |m.steps|
    ensures Workable(Current(m).status)
  {
    assert ExpectedStep(m, m.index);
  }

  /** One write of the manifest in which only the current step, the counters, the halt and the analyses change. */
  lemma WriteSound(d: Disk, m: Main, n: Main)
    requires Inv(d) && d.main == Some(m)
    requires |n.steps| == |m.steps| && n.index == m.index
    requires forall i | 0 <= i < |m.steps| && i != m.index :: n.steps[i] == m.steps[i]
    requires m.index < STEPS ==>
      && Workable(n.steps[m.index].status)
      && (m.steps[m.index].sendRecovery.Some? ==> n.steps[m.index].sendRecovery == m.steps[m.index].sendRecovery)
    requires Counted(n) && n.posts <= STEPS && n.gets <= STEPS && m.posts <= n.posts && m.gets <= n.gets
    requires (n.complete ==> n.index == STEPS) && (m.complete ==> n.complete)
    requires n.halted != Some(UnexpectedStep) && n.halted != Some(BudgetExhausted)
    ensures Sound(d, [Put(d, n)]) && Inv(Put(d, n))
  {
    ExpectedStays(m, n);
    hide Expected, Workable;
  }

  lemma HaltSound(d: Disk, m: Main, n: Main, reason: Halt)
    requires Inv(d) && d.main == Some(m) && !reason.UnexpectedStep? && !reason.BudgetExhausted?
    requires n == m || (m.index < STEPS && exists s :: n == SetStep(m, s) && s.status == Current(m).status && s.sendRecovery == Current(m).sendRecovery)
    ensures Sound(d, HaltNow(d, n, reason).states)
  {
    if m.index < STEPS {
      CurrentIsWorkable(m);
    }
    WriteSound(d, m, n.(halted := Some(reason)));
  }

  ghost predicate Opened(d: Disk, m: Main) {
    Inv(d) && d.main == Some(m) && MainFits(m) && m.halted.None? && !HasOpenIntent(m)
  }

  lemma NewMainFits()
    ensures MainFits(NewMain)
  {
    assert forall i | 0 <= i < STEPS :: NewMain.steps[i] == NewStep;
    assert forall i | 0 <= i < STEPS :: ExpectedStep(NewMain, i);
  }

  lemma OpenSound(d: Disk, create: bool)
    requires Inv(d)
    ensures Sound(d, Open(d, create).states)
    ensures Open(d, create).result.Ok? ==>
      var e := Last(d, Open(d, create).states); e.main.Some? && Opened(e, e.main.value)
  {
    NewMainFits();
    hide Expected, HasOpenIntent, Counted;
    var first := if d.main.None? && create then [Put(d, NewMain)] else [];
    var d1 := Last(d, first);
    assert Sound(d, first) && Inv(d1);
    if d1.main.Some? {
      HaltSound(d1, d1.main.value, d1.main.value, Interrupted);
      SoundJoins(d, first, HaltNow(d1, d1.main.value, Interrupted).states);
    }
  }

  lemma PrepareSound(d: Disk, c: PrepareCourse)
    requires Inv(d)
    ensures Sound(d, PrepareStep(d, c).states)
  {
    hide Inv, Moves, Open, PrepareOpened;
    OpenSound(d, true);
    var opening := Open(d, true);
    if opening.result.Ok? {
      var e := Last(d, opening.states);
      PrepareOpenedSound(e, e.main.value, c);
      SoundJoins(d, opening.states, PrepareOpened(e, c).states);
    }
  }

  lemma PrepareOpenedSound(d: Disk, m: Main, c: PrepareCourse)
    requires Opened(d, m)
    ensures Sound(d, PrepareOpened(d, c).states)
  {
    hide Expected, HasOpenIntent, Sound;
    NothingSound(d);
    HaltSound(d, m, m, PayloadChanged);
    HaltSound(d, m, m, ApprovalSpent);
    if Selectable(m) && (Current(m).status.Planned? || Current(m).status.Prepared?) {
      WriteSound(d, m, SetStep(m, Current(m).(status := Prepared, text := c.text)));
    }
  }

  lemma NothingSound(d: Disk)
    ensures Sound(d, [])
  {
  }

  lemma SendSound(d: Disk, c: SendCourse)
    requires Inv(d)
    ensures Sound(d, SendStep(d, c).states)
  {
    hide Inv, Moves, Open, SendOpened;
    OpenSound(d, false);
    var opening := Open(d, false);
    if opening.result.Ok? {
      var e := Last(d, opening.states);
      SendOpenedSound(e, e.main.value, c);
      SoundJoins(d, opening.states, SendOpened(e, c).states);
    }
  }

  ghost predicate Intends(d: Disk, m: Main, status: Status) {
    && Inv(d) && d.main == Some(m) && MainFits(m) && |m.steps| == STEPS && m.halted.None? && m.index < STEPS
    && Current(m).status == status
  }

  lemma SettleSendSound(d: Disk, m: Main, c: SendCourse)
    requires Intends(d, m, PostIntent)
    ensures Sound(d, SettleSend(d, m, c).states)
  {
    hide Expected, HasOpenIntent, Sound;
    match c.outcome
    case Refused => HaltSound(d, m, SetStep(m, Current(m).(failed := true)), SendFailed);
    case Ambiguous => HaltSound(d, m, SetStep(m, Current(m).(failed := true)), AmbiguousSend);
    case Threw => HaltSound(d, m, m, SendStopped);
    case Succeeded(at) =>
      HaltSound(d, m, m, UnknownReceipt);
      var sent := SetStep(m, Current(m).(status := Sent, at := Some(at)));
      WriteSound(d, m, sent);
      WriteSound(d, m, sent.(halted := Some(SendStopped)));
  }

  /** The POST itself, after its intent. */
  lemma PostSound(d: Disk, m: Main)
    requires Intends(d, m, PostIntent) && d.postsMade < m.posts
    ensures Sound(d, [d.(postsMade := d.postsMade + 1)]) && Intends(d.(postsMade := d.postsMade + 1), m, PostIntent)
  {
    hide Expected;
  }

  lemma SendOpenedSound(d: Disk, m: Main, c: SendCourse)
    requires Opened(d, m)
    ensures Sound(d, SendOpened(d, c).states)
  {
    hide Expected, HasOpenIntent, Sound, SettleSend, Inv;
    NothingSound(d);
    HaltSound(d, m, m, ApprovedChanged);
    HaltSound(d, m, m, SendStopped);
    if Selectable(m) && Current(m).status.Prepared? {
      PreparedCounts(d, m);
      var n := SetStep(m, Current(m).(status := PostIntent)).(posts := m.posts + 1);
      var d1 := Put(d, n);
      WriteSound(d, m, n);
      WriteSound(d, m, n.(halted := Some(SendStopped)));
      IntentHolds(d1, n);
      SettleSendSound(d1, n, c);
      SoundJoins(d, [d1], SettleSend(d1, n, c).states);
      PostSound(d1, n);
      var d2 := d1.(postsMade := d1.postsMade + 1);
      SoundJoins(d, [d1], [d2]);
      assert [d1] + [d2] == [d1, d2];
      SettleSendSound(d2, n, c);
      SoundJoins(d, [d1, d2], SettleSend(d2, n, c).states);
    }
  }

  lemma PreparedCounts(d: Disk, m: Main)
    requires Inv(d) && d.main == Some(m) && m.index < STEPS && (Current(m).status.Prepared? || Current(m).status.Sent? || Current(m).status.SentReconciled?)
    ensures |m.steps| == STEPS && m.gets == m.index < STEPS && d.postsMade <= m.posts && d.getsMade <= m.gets
    ensures Current(m).status.Prepared? ==> m.posts == m.index
    ensures !Current(m).status.Prepared? ==> m.posts == m.index + 1
  {
    hide Expected;
  }

  lemma IntentHolds(d: Disk, m: Main)
    requires Inv(d) && d.main == Some(m) && m.halted.None? && m.index < STEPS
    ensures Intends(d, m, Current(m).status)
  {
  }

  lemma ReceiveSound(d: Disk, c: ReceiveCourse)
    requires Inv(d)
    ensures Sound(d, ReceiveStep(d, c).states)
  {
    hide Inv, Moves, Open, ReceiveOpened;
    OpenSound(d, false);
    var opening := Open(d, false);
    if opening.result.Ok? {
      var e := Last(d, opening.states);
      ReceiveOpenedSound(e, e.main.value, c);
      SoundJoins(d, opening.states, ReceiveOpened(e, c).states);
    }
  }

  /** The step is acknowledged and the next one becomes current, in one write, or in the halt that replaces it. */
  lemma AcknowledgeSound(d: Disk, m: Main)
    requires Inv(d) && d.main == Some(m) && m.index < STEPS && Current(m).status.Received?
    ensures Sound(d, [Put(d, Acknowledge(m))])
    ensures Sound(d, HaltNow(d, FailedAt(Acknowledge(m), m.index), ReceiptFailed).states)
  {
    AcknowledgedFits(m);
  }

  lemma AcknowledgedFits(m: Main)
    requires MainFits(m) && m.index < STEPS && Current(m).status.Received?
    ensures MainFits(Acknowledge(m)) && MainFits(FailedAt(Acknowledge(m), m.index).(halted := Some(ReceiptFailed)))
  {
    var n := Acknowledge(m);
    var f := FailedAt(n, m.index).(halted := Some(ReceiptFailed));
    forall i | 0 <= i < |n.steps|
      ensures ExpectedStep(n, i) && ExpectedStep(f, i)
    {
      assert ExpectedStep(m, i);
    }
    if n.index < STEPS {
      assert ExpectedStep(m, n.index);
    }
  }

  /** A completion that fails leaves the manifest, or halts it; it has not been advanced on disk. */
  lemma CompleteReceiptSound(d: Disk, m: Main, c: ReceiveCourse)
    requires Inv(d) && d.main == Some(m) && m.index < STEPS && Current(m).status.Received?
    ensures Sound(d, CompleteReceipt(d, m, c).states)
    ensures CompleteReceipt(d, m, c).result.Err? ==>
      var e := Last(d, CompleteReceipt(d, m, c).states);
      (e == d || e == Put(d, m.(halted := Some(EvidenceMismatch))) || e == Put(d, m.(halted := Some(CursorChanged))))
      && (ReachesEnd(c) ==> e == d)
  {
    HaltSound(d, m, m, EvidenceMismatch);
    HaltSound(d, m, m, CursorChanged);
    AcknowledgeSound(d, m);
    hide Inv, Moves, Sound;
    NothingSound(d);
  }

  lemma GetSound(d: Disk, m: Main)
    requires Intends(d, m, GetIntent) && d.getsMade < m.gets
    ensures Sound(d, [d.(getsMade := d.getsMade + 1)]) && Intends(d.(getsMade := d.getsMade + 1), m, GetIntent)
  {
    hide Expected;
  }

  /** What follows a durable receipt within the same call. */
  lemma AfterReceiptSound(d: Disk, m: Main, c: ReceiveCourse)
    requires Inv(d) && d.main == Some(m) && m.index < STEPS && Current(m).status.Received?
    ensures Sound(d, AfterReceipt(d, m, c).states)
  {
    CurrentIsWorkable(m);
    hide Expected, CompleteReceipt, Sound;
    WriteSound(d, m, FailedAt(m, m.index).(halted := Some(ReceiptFailed)));
    CompleteReceiptSound(d, m, c);
    var finish := CompleteReceipt(d, m, c);
    if finish.result.Err? {
      var e := Last(d, finish.states);
      LastSound(d, finish.states);
      if ReachesEnd(c) {
        AcknowledgeSound(d, m);
      } else {
        WriteSound(e, e.main.value, FailedAt(m, m.index).(halted := Some(ReceiptFailed)));
      }
      SoundJoins(d, finish.states, HaltNow(e, FailedAt(LeftInMemory(m, c), m.index), ReceiptFailed).states);
    }
  }

  lemma AfterReadSound(d: Disk, m: Main, c: ReceiveCourse)
    requires Intends(d, m, GetIntent)
    ensures Sound(d, AfterRead(d, m, c).states)
  {
    hide Expected, AfterReceipt, Sound;
    HaltSound(d, m, FailedAt(m, m.index), ReceiptFailed);
    if c.persisted.Some? {
      var n := SetStep(m, Current(m).(status := Received, inboundTask := c.persisted));
      WriteSound(d, m, n);
      WriteSound(d, m, FailedAt(n, n.index).(halted := Some(ReceiptFailed)));
      AfterReceiptSound(Put(d, n), n, c);
      SoundJoins(d, [Put(d, n)], AfterReceipt(Put(d, n), n, c).states);
    }
  }

  lemma ReadOnceSound(d: Disk, m: Main, c: ReceiveCourse)
    requires Inv(d) && d.main == Some(m) && m.halted.None? && m.index < STEPS
    requires Current(m).status.Sent? || Current(m).status.SentReconciled?
    ensures Sound(d, ReadOnce(d, SetStep(m, Current(m).(status := GetIntent)).(gets := m.gets + 1), c).states)
  {
    hide Inv, Moves, AfterRead, Sound, MainFits;
    PreparedCounts(d, m);
    var n := SetStep(m, Current(m).(status := GetIntent)).(gets := m.gets + 1);
    var d1 := Put(d, n);
    IntentWriteSound(d, m);
    IntentHolds(d1, n);
    AfterReadSound(d1, n, c);
    SoundJoins(d, [d1], AfterRead(d1, n, c).states);
    GetSound(d1, n);
    var d2 := d1.(getsMade := d1.getsMade + 1);
    SoundJoins(d, [d1], [d2]);
    assert [d1] + [d2] == [d1, d2];
    AfterReadSound(d2, n, c);
    SoundJoins(d, [d1, d2], AfterRead(d2, n, c).states);
  }

  lemma IntentWriteSound(d: Disk, m: Main)
    requires Inv(d) && d.main == Some(m) && m.index < STEPS && (Current(m).status.Sent? || Current(m).status.SentReconciled?)
    ensures var n := SetStep(m, Current(m).(status := GetIntent)).(gets := m.gets + 1);
      Sound(d, [Put(d, n)]) && Inv(Put(d, n)) && Sound(d, HaltNow(d, FailedAt(n, n.index), ReceiptFailed).states)
  {
    PreparedCounts(d, m);
    hide Expected;
    var n := SetStep(m, Current(m).(status := GetIntent)).(gets := m.gets + 1);
    WriteSound(d, m, n);
    WriteSound(d, m, FailedAt(n, n.index).(halted := Some(ReceiptFailed)));
  }

  lemma ReceiveOpenedSound(d: Disk, m: Main, c: ReceiveCourse)
    requires Opened(d, m)
    ensures Sound(d, ReceiveOpened(d, c).states)
  {
    hide Expected, HasOpenIntent, Sound, CompleteReceipt, ReadOnce;
    NothingSound(d);
    if Selectable(m) {
      var failed := SetStep(m, Current(m).(failed := true));
      HaltSound(d, m, failed, StaleCursor);
      HaltSound(d, m, failed, ReceiptFailed);
      if Current(m).status.Received? {
        CompleteReceiptSound(d, m, c);
      } else if Current(m).status.Sent? || Current(m).status.SentReconciled? {
        PreparedCounts(d, m);
        ReadOnceSound(d, m, c);
      }
    }
  }

  lemma WorkSound(d: Disk, c: WorkCourse)
    requires Inv(d)
    ensures Sound(d, WorkStep(d, c).states)
  {
    hide Inv, Moves, Open, WorkOpened;
    OpenSound(d, false);
    var opening := Open(d, false);
    if opening.result.Ok? {
      var e := Last(d, opening.states);
      WorkOpenedSound(e, e.main.value, c);
      SoundJoins(d, opening.states, WorkOpened(e, c).states);
    }
  }

  /** Writes that change analyses, and completion at the end, leave the relay itself alone. */
  lemma AnalysisSound(d: Disk, m: Main, n: Main)
    requires Inv(d) && d.main == Some(m)
    requires n == m.(analyses := n.analyses, complete := n.complete, halted := n.halted)
    requires n.halted == m.halted || n.halted == Some(AnalysisFailed) || n.halted == Some(AnalysisChanged)
    requires (m.complete ==> n.complete) && (n.complete ==> m.index == STEPS)
    ensures Sound(d, [Put(d, n)]) && Inv(Put(d, n))
  {
    if m.index < STEPS {
      CurrentIsWorkable(m);
    }
    WriteSound(d, m, n);
  }

  lemma WorkOpenedSound(d: Disk, m: Main, c: WorkCourse)
    requires Opened(d, m)
    ensures Sound(d, WorkOpened(d, c).states)
  {
    hide Inv, Moves, Sound, MainFits, HasOpenIntent;
    NothingSound(d);
    CompletionIsLast(d, m);
    AnalysisSound(d, m, m.(halted := Some(AnalysisChanged)));
    var prior := if c.alias in m.analyses then Some(m.analyses[c.alias]) else None;
    var begun := if prior.Some? then prior.value else Analysis(c.packet, false, false);
    var m1 := m.(analyses := m.analyses[c.alias := begun]);
    var d1 := Put(d, m1);
    var m2 := if c.delegated && m.index != STEPS then m1.(analyses := m1.analyses[c.alias := begun.(delegated := true)]) else m1;
    var d2 := Put(d1, m2);
    AnalysisSound(d, m, m1);
    AnalysisSound(d1, m1, m2);
    SoundJoins(d, [d1], [d2]);
    assert [d1] + [d2] == [d1, d2];
    AnalysisSound(d2, m2, m2.(halted := Some(AnalysisFailed)));
    SoundJoins(d, [d1, d2], [Put(d2, m2.(halted := Some(AnalysisFailed)))]);
    var done := m2.analyses[c.alias].(evidence := true);
    var m3 := m2.(analyses := m2.analyses[c.alias := done], complete := m2.complete || m.index == STEPS);
    AnalysisSound(d2, m2, m3);
    SoundJoins(d, [d1, d2], [Put(d2, m3)]);
    AnalysisSound(d2, m2, m3.(halted := Some(AnalysisFailed)));
    SoundJoins(d, [d1, d2], [Put(d2, m3.(halted := Some(AnalysisFailed)))]);
    assert [d1, d2] + [Put(d2, m3)] == [d1, d2, Put(d2, m3)];
  }

  lemma CompletionIsLast(d: Disk, m: Main)
    requires Inv(d) && d.main == Some(m)
    ensures m.complete ==> m.index == STEPS
  {
  }

  // ----------------------------------------------------------------- receipt recovery

  /** The recovered manifest is one the relay could have reached. */
  lemma AppliedReadFits(m: Main, receipt: ReadReceipt)
    requires MainFits(m) && RecoverableRead(m)
    ensures MainFits(AppliedRead(m, receipt)) && MainLater(m, AppliedRead(m, receipt))
  {
    var n := AppliedRead(m, receipt);
    forall i | 0 <= i < |n.steps|
      ensures ExpectedStep(n, i)
    {
      assert ExpectedStep(m, i);
    }
  }

  lemma KeepsMain(d: Disk, e: Disk)
    requires Inv(d) && e.main == d.main && e.postsMade == d.postsMade && e.getsMade == d.getsMade
    ensures Inv(e) && Moves(d, e)
  {
    hide MainFits;
  }

  /** What the recovery may do to the manifest: nothing, or once the whole change, under a verified transition. */
  ghost predicate RecoversOnce(d: Disk, states: seq<Disk>) {
    forall k | 0 <= k < |states| ::
      || states[k].main == Before(d, states, k).main
      || (Before(d, states, k).main == d.main && d.main.Some? && RecoverableRead(d.main.value)
          && Before(d, states, k).transition.Some? && Before(d, states, k).transition.value.phase.ReceiptVerified?
          && Before(d, states, k).transition.value.receipt.original == d.main.value
          && states[k].main == Some(AppliedRead(d.main.value, Before(d, states, k).transition.value.receipt)))
  }

  lemma RecoverVerifiedSound(d: Disk, m: Main, already: bool, receipt: ReadReceipt)
    requires Inv(d) && d.main == Some(m) && |receipt.original.steps| == STEPS && |m.steps| == STEPS
    requires !already ==> receipt.original == m && RecoverableRead(m)
    requires d.transition.Some? ==> d.transition.value.receipt == receipt
    ensures Sound(d, RecoverVerified(d, m, already, receipt).states)
    ensures RecoversOnce(d, RecoverVerified(d, m, already, receipt).states)
    ensures already ==> forall x | x in RecoverVerified(d, m, already, receipt).states :: x.main == d.main
  {
    if already {
      KeepsMain(d, d.(transition := Some(Transition(Applied, receipt))));
    } else {
      AppliedReadFits(m, receipt);
      hide MainFits, MainLater, RecoverableRead, AppliedRead;
      var d1 := d.(transition := Some(Transition(RecoveryIntent, receipt)));
      var d2 := d.(transition := Some(Transition(ReceiptVerified, receipt)));
      var d3 := Put(d2, AppliedRead(m, receipt));
      KeepsMain(d, d1);
      KeepsMain(d1, d2);
      KeepsMain(d, d2);
      AppliedKeepsRequests(d2, m, receipt);
      KeepsMain(d3, d3.(transition := Some(Transition(Applied, receipt))));
      hide Inv, Moves;
    }
  }

  lemma AppliedKeepsRequests(d: Disk, m: Main, receipt: ReadReceipt)
    requires Inv(d) && d.main == Some(m) && RecoverableRead(m)
    ensures Inv(Put(d, AppliedRead(m, receipt))) && Moves(d, Put(d, AppliedRead(m, receipt)))
  {
    AppliedReadFits(m, receipt);
    hide MainFits, MainLater;
  }

  /** The receipt recovery is sound, changes the manifest at most once, and not at all when it already did. */
  lemma RecoverReadSound(d: Disk, evidence: Option<Evidence>)
    requires Inv(d)
    ensures Sound(d, RecoverRead(d, evidence).states) && RecoversOnce(d, RecoverRead(d, evidence).states)
    ensures d.main.Some? && |d.main.value.steps| == STEPS && d.main.value.steps[0].status.ReceivedReconciled? ==>
      forall x | x in RecoverRead(d, evidence).states :: x.main == d.main
  {
    hide Inv, Moves, RecoverVerified;
    NothingSound(d);
    if d.main.Some? && ValidMain(d.main.value) {
      var m := d.main.value;
      var already := m.steps[0].status.ReceivedReconciled?;
      var original := if already then Reconstructed(m) else m;
      if evidence.Some? {
        var receipt := ReadReceipt(evidence.value.inboundTask, original);
        if (d.transition.Some? ==> d.transition.value.receipt == receipt) && RecoverableRead(original) {
          RecoverVerifiedSound(d, m, already, receipt);
        }
      }
    }
  }

  // -------------------------------------------------------------- send reconciliation

  lemma AppliedSendSound(d: Disk, m: Main, receipt: SendReceipt)
    requires Inv(d) && d.main == Some(m) && RecoverableSend(m, receipt.step)
    ensures Inv(Put(d, AppliedSend(m, receipt))) && Moves(d, Put(d, AppliedSend(m, receipt)))
  {
    WriteSound(d, m, AppliedSend(m, receipt));
    hide Expected;
    assert Sound(d, [Put(d, AppliedSend(m, receipt))]);
    assert Before(d, [Put(d, AppliedSend(m, receipt))], 0) == d;
  }

  /** What the send repair may do to the manifest: nothing, or once the whole change, after its intent. */
  ghost predicate AppliesOnce(d: Disk, n: nat, states: seq<Disk>) {
    forall k | 0 <= k < |states| ::
      || states[k].main == Before(d, states, k).main
      || (Before(d, states, k).main == d.main && d.main.Some? && RecoverableSend(d.main.value, n)
          && n in Before(d, states, k).sends && Before(d, states, k).sends[n].apply.Some?
          && !Before(d, states, k).sends[n].apply.value.done && Before(d, states, k).sends[n].apply.value.receipt.step == n
          && states[k].main == Some(AppliedSend(d.main.value, Before(d, states, k).sends[n].apply.value.receipt)))
  }

  lemma ApplyFirstSound(d: Disk, m: Main, r: SendRecord, receipt: SendReceipt, fits: bool)
    requires Inv(d) && d.main == Some(m) && 1 <= receipt.step <= |m.steps| && receipt.step in d.sends && d.sends[receipt.step] == r
    requires r.apply.Some? ==> r.apply.value.receipt == receipt
    ensures Sound(d, ApplyFirst(d, m, r, receipt, fits).states)
    ensures AppliesOnce(d, receipt.step, ApplyFirst(d, m, r, receipt, fits).states)
  {
    if RecoverableSend(m, receipt.step) {
      var next := AppliedSend(m, receipt);
      var intent := r.(apply := Some(Apply(false, receipt, next)));
      var d1 := d.(sends := d.sends[receipt.step := intent]);
      var d2 := Put(d1, next);
      KeepsMain(d, d1);
      AppliedSendSound(d1, m, receipt);
      KeepsMain(d2, d2.(sends := d2.sends[receipt.step := intent.(apply := Some(Apply(true, receipt, next)))]));
      SameRecordSameDisk(d, receipt.step, r, intent);
      hide Inv, Moves, RecoverableSend, AppliedSend;
    }
  }

  lemma SameRecordSameDisk(d: Disk, n: nat, r: SendRecord, s: SendRecord)
    requires n in d.sends && d.sends[n] == r
    ensures r == s ==> d.(sends := d.sends[n := s]) == d
  {
    if r == s {
      assert d.sends[n := s] == d.sends;
    }
  }

  lemma ApplySendSound(d: Disk, n: nat, fits: bool, authority: bool)
    requires Inv(d)
    ensures Sound(d, ApplySend(d, n, fits, authority).states) && AppliesOnce(d, n, ApplySend(d, n, fits, authority).states)
    ensures d.main.Some? && 1 <= n <= |d.main.value.steps| && d.main.value.steps[n - 1].sendRecovery.Some? ==>
      forall x | x in ApplySend(d, n, fits, authority).states :: x.main == d.main
  {
    if d.main.Some? && |d.main.value.steps| == STEPS && n in d.sends && d.sends[n].status.Observed? && 1 <= n <= STEPS {
      var m, r := d.main.value, d.sends[n];
      var receipt := SendReceipt(n, r.status.at, r.original);
      if m.steps[n - 1].sendRecovery.Some? {
        if r.apply.Some? {
          KeepsMain(d, d.(sends := d.sends[n := r.(apply := Some(r.apply.value.(done := true)))]));
        }
        hide Inv, Moves;
      } else {
        hide Inv, Moves, ApplyFirst;
        if r.apply.None? || r.apply.value.receipt == receipt {
          ApplyFirstSound(d, m, r, receipt, fits);
        }
      }
    }
  }

  lemma ObserveSound(d: Disk, n: nat, cursor: nat, fits: bool, authorized: bool, outcome: Observation)
    requires Inv(d)
    ensures Sound(d, PrepareReconciliation(d, n, cursor, fits).states)
    ensures Sound(d, Observe(d, n, fits, authorized, outcome).states)
  {
    forall e: Disk | e.main == d.main && e.postsMade == d.postsMade && e.getsMade == d.getsMade
      ensures Inv(e) && Moves(d, e)
    {
      KeepsMain(d, e);
    }
    if n in d.sends {
      var d1 := d.(sends := d.sends[n := d.sends[n].(attempts := 1, status := GetIntended)]);
      forall e: Disk | e.main == d.main && e.postsMade == d.postsMade && e.getsMade == d.getsMade
        ensures Moves(d1, e)
      {
        KeepsMain(d1, e);
      }
    }
    hide Inv, Moves, RecoverableSend;
  }

  lemma OperationSound(d: Disk, op: Operation)
    requires Inv(d)
    ensures Sound(d, TraceOf(d, op).states)
  {
    hide Inv, Sound, PrepareStep, SendStep, ReceiveStep, WorkStep, RecoverRead, Observe, PrepareReconciliation, ApplySend;
    match op
    case DoPrepare(c) => PrepareSound(d, c);
    case DoSend(c) => SendSound(d, c);
    case DoReceive(c) => ReceiveSound(d, c);
    case DoWork(c) => WorkSound(d, c);
    case DoRecoverRead(evidence) => RecoverReadSound(d, evidence);
    case DoPrepareReconciliation(n, cursor, fits) => ObserveSound(d, n, cursor, fits, true, NotObserved);
    case DoObserve(n, fits, authorized, outcome) => ObserveSound(d, n, 0, fits, authorized, outcome);
    case DoApplySend(n, fits, authority) => ApplySendSound(d, n, fits, authority);
  }

  // ------------------------------------------------------------------- theorems

  lemma AfterKeepsInv(d: Disk, a: Attempt)
    requires Inv(d)
    ensures Inv(After(d, a))
  {
    hide Inv, Moves, TraceOf;
    OperationSound(d, a.operation);
  }

  lemma {:induction false} InvAfterAll(runs: seq<Attempt>)
    ensures Inv(AfterAll(runs))
    decreases |runs|
  {
    hide After;
    if runs != [] {
      hide Inv;
      InvAfterAll(runs[..|runs| - 1]);
      AfterKeepsInv(AfterAll(runs[..|runs| - 1]), runs[|runs| - 1]);
    }
  }

  /** The counters are exact in every state that runs, repairs and crashes can leave, and no request exceeds them. */
  lemma {:induction false} CountersAreExact(runs: seq<Attempt>)
    requires AfterAll(runs).main.Some?
    ensures var d := AfterAll(runs); var m := d.main.value;
      && |m.steps| == STEPS && m.index <= STEPS
      && m.posts == m.index + (if m.index < STEPS && Posted(m.steps[m.index].status) then 1 else 0) <= STEPS
      && m.gets == m.index + (if m.index < STEPS && Gotten(m.steps[m.index].status) then 1 else 0) <= STEPS
      && d.postsMade <= m.posts && d.getsMade <= m.gets
  {
    hide AfterAll, Expected;
    InvAfterAll(runs);
  }

  /** A complete rehearsal made exactly eight of each, and every step is acknowledged, or the first one reconciled. */
  lemma {:induction false} CompletionMeansEightOfEach(runs: seq<Attempt>, i: nat)
    requires AfterAll(runs).main.Some? && AfterAll(runs).main.value.complete && i < STEPS
    ensures var m := AfterAll(runs).main.value;
      && m.index == 8 && m.posts == 8 && m.gets == 8 && |m.steps| == STEPS
      && (m.steps[i].status.Acknowledged? || (i == 0 && m.steps[i].status.ReceivedReconciled?))
  {
    hide AfterAll;
    InvAfterAll(runs);
    assert ExpectedStep(AfterAll(runs).main.value, i);
  }

  /** The two halts that would mean a broken manifest or an exhausted budget never happen. */
  lemma {:induction false} BrokenManifestIsUnreachable(runs: seq<Attempt>)
    requires AfterAll(runs).main.Some?
    ensures AfterAll(runs).main.value.halted != Some(UnexpectedStep) && AfterAll(runs).main.value.halted != Some(BudgetExhausted)
  {
    hide AfterAll;
    InvAfterAll(runs);
  }

  lemma LaterJoins(a: Disk, b: Disk, c: Disk)
    requires Later(a, b) && Later(b, c)
    ensures Later(a, c)
  {
  }

  lemma SameIsLater(d: Disk)
    ensures Later(d, d)
  {
  }

  lemma MovesIsLater(a: Disk, b: Disk)
    requires Moves(a, b)
    ensures Later(a, b)
  {
    hide Later;
  }

  lemma {:induction false} SoundIsLater(d: Disk, states: seq<Disk>)
    requires Sound(d, states)
    ensures Later(d, Last(d, states))
    decreases |states|
  {
    hide Inv, Moves, Later;
    if states == [] {
      SameIsLater(d);
    } else {
      var n := |states| - 1;
      var front := states[..n];
      assert forall k | 0 <= k < n :: Before(d, front, k) == Before(d, states, k);
      SoundIsLater(d, front);
      assert Before(d, states, n) == Last(d, front);
      MovesIsLater(Last(d, front), states[n]);
      LaterJoins(d, Last(d, front), states[n]);
    }
  }

  lemma AfterIsLater(d: Disk, a: Attempt)
    requires Inv(d)
    ensures Later(d, After(d, a))
  {
    hide Inv, Moves, TraceOf, Later;
    OperationSound(d, a.operation);
    var states := TraceOf(d, a.operation).states;
    var done := if a.cut <= |states| then states[..a.cut] else states;
    assert forall k | 0 <= k < |done| :: Before(d, done, k) == Before(d, states, k);
    SoundIsLater(d, done);
  }

  /** Counters never fall, finished steps and recorded repairs stay exactly as they are, over any further runs. */
  lemma {:induction false} ProgressIsKept(runs: seq<Attempt>, more: seq<Attempt>)
    ensures Later(AfterAll(runs), AfterAll(runs + more))
    decreases |more|
  {
    hide Inv, After, Later;
    var all := runs + more;
    if more == [] {
      assert all == runs;
      SameIsLater(AfterAll(runs));
    } else {
      var front := more[..|more| - 1];
      assert all[..|all| - 1] == runs + front && all[|all| - 1] == more[|more| - 1];
      ProgressIsKept(runs, front);
      InvAfterAll(runs + front);
      AfterIsLater(AfterAll(runs + front), more[|more| - 1]);
      LaterJoins(AfterAll(runs), AfterAll(runs + front), AfterAll(all));
    }
  }

  /** Once the receipt repair is in the manifest it is there for good, and applying it again never writes the manifest. */
  lemma {:induction false} ReadRepairHappensOnce(runs: seq<Attempt>, more: seq<Attempt>, evidence: Option<Evidence>)
    requires var m := AfterAll(runs).main; m.Some? && |m.value.steps| == STEPS && m.value.steps[0].status.ReceivedReconciled?
    ensures var later := AfterAll(runs + more);
      && later.main.Some? && |later.main.value.steps| == STEPS && later.main.value.steps[0] == AfterAll(runs).main.value.steps[0]
      && forall x | x in RecoverRead(later, evidence).states :: x.main == later.main
  {
    hide AfterAll, Inv;
    ProgressIsKept(runs, more);
    InvAfterAll(runs);
    InvAfterAll(runs + more);
    ReconciledIsPast(AfterAll(runs));
    RecoverReadSound(AfterAll(runs + more), evidence);
  }

  lemma ReconciledIsPast(d: Disk)
    requires Inv(d)
    ensures d.main.Some? ==>
      |d.main.value.steps| == STEPS && (d.main.value.steps[0].status.ReceivedReconciled? ==> d.main.value.index > 0)
  {
    assert d.main.Some? ==> ExpectedStep(d.main.value, 0);
  }

  /** Once a send repair is in the manifest it is there for good, and applying it again never writes the manifest. */
  lemma {:induction false} SendRepairHappensOnce(runs: seq<Attempt>, more: seq<Attempt>, n: nat, fits: bool, authority: bool)
    requires var m := AfterAll(runs).main; m.Some? && 1 <= n <= |m.value.steps| && m.value.steps[n - 1].sendRecovery.Some?
    ensures var later := AfterAll(runs + more);
      && later.main.Some? && n <= |later.main.value.steps|
      && later.main.value.steps[n - 1].sendRecovery == AfterAll(runs).main.value.steps[n - 1].sendRecovery
      && forall x | x in ApplySend(later, n, fits, authority).states :: x.main == later.main
  {
    hide AfterAll, Inv;
    ProgressIsKept(runs, more);
    InvAfterAll(runs + more);
    ApplySendSound(AfterAll(runs + more), n, fits, authority);
  }

  // ----------------------------------------------------------- interrupted repairs resume

  lemma ReconstructionInverts(m: Main, receipt: ReadReceipt)
    requires RecoverableRead(m)
    ensures Reconstructed(AppliedRead(m, receipt)) == m
  {
    var n := Reconstructed(AppliedRead(m, receipt));
    assert m.steps[0] == n.steps[0];
    forall i | 0 <= i < STEPS
      ensures n.steps[i] == m.steps[i]
    {
      if i > 0 {
        assert LaterSteps[i - 1] == NewStep;
      }
    }
    assert n.steps == m.steps;
  }

  function Repaired(d: Disk, m: Main, receipt: ReadReceipt): Disk
    requires |m.steps| == STEPS
  {
    d.(main := Some(AppliedRead(m, receipt)), transition := Some(Transition(Applied, receipt)))
  }

  /** Before the manifest is replaced, the recovery runs to its end from any phase. */
  lemma RepairsFromBefore(d: Disk, m: Main, receipt: ReadReceipt)
    requires d.main == Some(m) && RecoverableRead(m) && receipt.original == m
    requires d.transition.Some? ==> d.transition.value.receipt == receipt && !d.transition.value.phase.Applied?
    ensures var t := RecoverRead(d, Some(Evidence(m, receipt.inboundTask)));
      t.result.Ok? && Last(d, t.states) == Repaired(d, m, receipt)
  {
    hide AppliedRead;
  }

  /** And from the moment it is replaced. */
  lemma RepairsFromAfter(d: Disk, m: Main, receipt: ReadReceipt)
    requires RecoverableRead(m) && receipt.original == m && d.main == Some(AppliedRead(m, receipt))
    requires d.transition == Some(Transition(ReceiptVerified, receipt)) || d.transition == Some(Transition(Applied, receipt))
    ensures var t := RecoverRead(d, Some(Evidence(m, receipt.inboundTask)));
      t.result.Ok? && Last(d, t.states) == Repaired(d, m, receipt)
  {
    ReconstructionInverts(m, receipt);
    hide RecoverableRead, Reconstructed;
  }

  /** With the manifest already replaced there is at most the end of the transition left to write. */
  lemma InstalledRepairResumes(d: Disk, evidence: Option<Evidence>, cut: nat)
    requires RecoverRead(d, evidence).result.Ok? && cut <= |RecoverRead(d, evidence).states|
    requires d.main.value.steps[0].status.ReceivedReconciled?
    ensures var first := RecoverRead(d, evidence).states;
      var again := RecoverRead(Last(d, first[..cut]), evidence);
      again.result.Ok? && Last(Last(d, first[..cut]), again.states) == Last(d, first)
  {
    hide RecoverableRead, Reconstructed, AppliedRead;
    var first := RecoverRead(d, evidence).states;
    if cut > 0 {
      var receipt := d.transition.value.receipt;
      assert first == [d.(transition := Some(Transition(Applied, receipt)))];
    }
  }

  /** A receipt recovery cut off after any of its writes is finished by running it again, with the same end. */
  lemma ReadRepairResumes(d: Disk, evidence: Option<Evidence>, cut: nat)
    requires RecoverRead(d, evidence).result.Ok? && cut <= |RecoverRead(d, evidence).states|
    ensures var first := RecoverRead(d, evidence).states;
      var again := RecoverRead(Last(d, first[..cut]), evidence);
      again.result.Ok? && Last(Last(d, first[..cut]), again.states) == Last(d, first)
  {
    if d.main.value.steps[0].status.ReceivedReconciled? {
      InstalledRepairResumes(d, evidence, cut);
      return;
    }
    var m := d.main.value;
    var receipt := ReadReceipt(evidence.value.inboundTask, m);
    RepairsFromBefore(d, m, receipt);
    var first := RecoverRead(d, evidence).states;
    var e := Last(d, first[..cut]);
    assert e.main == Some(m) || e.main == Some(AppliedRead(m, receipt));
    hide RecoverRead, RecoverableRead, AppliedRead;
    if cut + 2 <= |first| {
      RepairsFromBefore(e, m, receipt);
    } else {
      RepairsFromAfter(e, m, receipt);
    }
  }

  /** A send repair cut off after any of its writes is finished by running it again, with the same end. */
  lemma SendRepairResumes(d: Disk, n: nat, cut: nat)
    requires ApplySend(d, n, true, true).result.Ok? && cut <= |ApplySend(d, n, true, true).states|
    ensures var first := ApplySend(d, n, true, true).states;
      var again := ApplySend(Last(d, first[..cut]), n, true, true);
      again.result.Ok? && Last(Last(d, first[..cut]), again.states) == Last(d, first)
  {
    var m, r := d.main.value, d.sends[n];
    if m.steps[n - 1].sendRecovery.None? {
      var receipt := SendReceipt(n, r.status.at, r.original);
      var next := AppliedSend(m, receipt);
      var intent := r.(apply := Some(Apply(false, receipt, next)));
      var done := r.(apply := Some(Apply(true, receipt, next)));
      assert d.sends[n := intent][n := done] == d.sends[n := done];
      SameRecordSameDisk(d, n, r, intent);
      hide RecoverableSend;
    }
  }
}
