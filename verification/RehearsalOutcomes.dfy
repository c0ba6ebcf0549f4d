/** Why the rehearsal's files say what they say, how each operation ends, and that the relay can be completed. */
module RehearsalOutcomes {
  import opened Wrappers
  import opened Rehearsal
  import opened RehearsalSafety

  // ------------------------------------------------------------------ one write, explained

  function StepOf(d: Disk, i: nat): Step {
    if d.main.None? || i >= |d.main.value.steps| then NewStep else d.main.value.steps[i]
  }

  function IndexOf(d: Disk): nat {
    if d.main.None? then 0 else d.main.value.index
  }

  /** A position comes from this send's receipt, for the step it worked on, or from the step's own observation. */
  predicate Places(op: Operation, index: nat, a: Disk, i: nat, at: nat) {
    || (op.DoSend? && i == index && op.send.outcome == Succeeded(at) && at >= 1)
    || (op.DoApplySend? && op.n == i + 1 && op.n in a.sends && a.sends[op.n].status == Observed(at))
  }

  predicate Takes(op: Operation, index: nat, i: nat, task: string) {
    || (op.DoReceive? && i == index && op.receive.persisted == Some(task))
    || (op.DoRecoverRead? && i == 0 && op.evidence.Some? && op.evidence.value.inboundTask == task)
  }

  predicate Words(op: Operation, index: nat, i: nat, text: Text) {
    op.DoPrepare? && i == index && op.prepare.text == Some(text)
  }

  predicate Analyses(op: Operation, alias: Alias, packet: Packet) {
    op.DoWork? && op.work.alias == alias && op.work.packet == packet
  }

  /** What a status says about the rest of the step. */
  predicate Complete(s: Step) {
    && (!s.status.Planned? ==> s.text.Some?)
    && (!s.status.Planned? && !s.status.Prepared? && !s.status.PostIntent? ==> s.at.Some?)
    && (s.status.Received? || s.status.Acknowledged? || s.status.ReceivedReconciled? ==> s.inboundTask.Some?)
  }

  ghost predicate StepExplained(op: Operation, index: nat, a: Disk, i: nat, t: Step) {
    var s := StepOf(a, i);
    && (t.at != s.at ==> t.at.Some? && Places(op, index, a, i, t.at.value))
    && (t.inboundTask != s.inboundTask ==> t.inboundTask.Some? && Takes(op, index, i, t.inboundTask.value))
    && (t.text != s.text ==> t.text.Some? && Words(op, index, i, t.text.value))
    && (Complete(s) ==> Complete(t))
  }

  ghost predicate Explains(op: Operation, index: nat, a: Disk, b: Disk) {
    && (forall i | 0 <= i < STEPS :: StepExplained(op, index, a, i, StepOf(b, i)))
    && SendsExplained(op, a, b)
    && (b.main.Some? ==> forall x | x in b.main.value.analyses :: AnalysisExplained(op, a, x, b.main.value.analyses[x]))
  }

  ghost predicate SendsExplained(op: Operation, a: Disk, b: Disk) {
    forall n | n in b.sends && (b.sends[n].status.Observed? || b.sends[n].status.NotObserved?)
      && (n !in a.sends || a.sends[n].status != b.sends[n].status) :: op.DoObserve? && op.n == n && op.outcome == b.sends[n].status
  }

  ghost predicate AnalysisExplained(op: Operation, a: Disk, x: Alias, y: Analysis) {
    var before := if a.main.Some? && x in a.main.value.analyses then Some(a.main.value.analyses[x]) else None;
    && (before.None? || before.value.packet != y.packet ==> Analyses(op, x, y.packet))
    && (y.evidence && (before.None? || !before.value.evidence) ==> Analyses(op, x, y.packet) && op.work.succeeded)
  }

  ghost predicate Explained(op: Operation, index: nat, d: Disk, states: seq<Disk>) {
    forall k | 0 <= k < |states| :: Explains(op, index, Before(d, states, k), states[k])
  }

  lemma ExplainedJoins(op: Operation, index: nat, d: Disk, a: seq<Disk>, b: seq<Disk>)
    requires Explained(op, index, d, a) && Explained(op, index, Last(d, a), b)
    ensures Explained(op, index, d, a + b)
  {
    hide Explains;
    forall k | 0 <= k < |a + b|
      ensures Explains(op, index, Before(d, a + b, k), (a + b)[k])
    {
      if k < |a| {
        assert Before(d, a + b, k) == Before(d, a, k);
      } else {
        assert Before(d, a + b, k) == Before(Last(d, a), b, k - |a|);
      }
    }
  }

  lemma SameSteps(op: Operation, index: nat, d: Disk, m: Main, n: Main)
    requires d.main == Some(m) && n.steps == m.steps && n.analyses == m.analyses
    ensures Explained(op, index, d, [Put(d, n)])
  {
    hide Places, Takes, Words, Analyses, Complete;
  }

  /** One write in which only the current step changes. */
  lemma StepWritten(op: Operation, index: nat, d: Disk, m: Main, n: Main)
    requires d.main == Some(m) && |m.steps| == |n.steps| == STEPS && index < STEPS && n.analyses == m.analyses
    requires forall i | 0 <= i < STEPS && i != index :: n.steps[i] == m.steps[i]
    requires StepExplained(op, index, d, index, n.steps[index])
    ensures Explained(op, index, d, [Put(d, n)])
  {
    hide Places, Takes, Words, Analyses, Complete;
  }

  lemma OpenExplained(op: Operation, index: nat, d: Disk, create: bool)
    ensures Explained(op, index, d, Open(d, create).states)
  {
    hide Expected, HasOpenIntent, ValidMain, Places, Takes, Words, Analyses;
    var first := if d.main.None? && create then [Put(d, NewMain)] else [];
    assert forall i | 0 <= i < STEPS :: NewMain.steps[i] == NewStep;
    assert Explained(op, index, d, first);
    var d1 := Last(d, first);
    if d1.main.Some? {
      SameSteps(op, index, d1, d1.main.value, d1.main.value.(halted := Some(UnexpectedStep)));
      SameSteps(op, index, d1, d1.main.value, d1.main.value.(halted := Some(Interrupted)));
      ExplainedJoins(op, index, d, first, HaltNow(d1, d1.main.value, UnexpectedStep).states);
      ExplainedJoins(op, index, d, first, HaltNow(d1, d1.main.value, Interrupted).states);
    }
  }

  lemma OpenKeepsIndex(d: Disk, create: bool)
    ensures IndexOf(Last(d, Open(d, create).states)) == IndexOf(d)
  {
    hide Expected, HasOpenIntent, ValidMain;
  }

  lemma PrepareExplained(d: Disk, c: PrepareCourse)
    requires Inv(d)
    ensures Explained(DoPrepare(c), IndexOf(d), d, PrepareStep(d, c).states)
  {
    hide Inv, Open, PrepareOpened, Explains;
    var op, index := DoPrepare(c), IndexOf(d);
    OpenExplained(op, index, d, true);
    OpenKeepsIndex(d, true);
    OpenSound(d, true);
    var opening := Open(d, true);
    if opening.result.Ok? {
      var e := Last(d, opening.states);
      PreparedExplained(e, e.main.value, c);
      ExplainedJoins(op, index, d, opening.states, PrepareOpened(e, c).states);
    }
  }

  lemma PreparedExplained(d: Disk, m: Main, c: PrepareCourse)
    requires Opened(d, m)
    ensures Explained(DoPrepare(c), m.index, d, PrepareOpened(d, c).states)
  {
    hide Expected, HasOpenIntent, Explained;
    var op := DoPrepare(c);
    SameSteps(op, m.index, d, m, m.(halted := Some(PayloadChanged)));
    SameSteps(op, m.index, d, m, m.(halted := Some(ApprovalSpent)));
    if Selectable(m) && c.text.Some? {
      StepWritten(op, m.index, d, m, SetStep(m, Current(m).(status := Prepared, text := c.text)));
    }
    NothingExplained(op, m.index, d);
  }

  lemma NothingExplained(op: Operation, index: nat, d: Disk)
    ensures Explained(op, index, d, [])
  {
  }

  lemma SendIsExplained(d: Disk, c: SendCourse)
    requires Inv(d)
    ensures Explained(DoSend(c), IndexOf(d), d, SendStep(d, c).states)
  {
    hide Inv, Open, SendOpened, Explains;
    var op, index := DoSend(c), IndexOf(d);
    OpenExplained(op, index, d, false);
    OpenKeepsIndex(d, false);
    OpenSound(d, false);
    var opening := Open(d, false);
    if opening.result.Ok? {
      var e := Last(d, opening.states);
      SendOpenedExplained(e, e.main.value, c);
      ExplainedJoins(op, index, d, opening.states, SendOpened(e, c).states);
    }
  }

  lemma SettleSendExplained(d: Disk, m: Main, c: SendCourse)
    requires d.main == Some(m) && |m.steps| == STEPS && m.index < STEPS && Current(m).status.PostIntent?
    ensures Explained(DoSend(c), m.index, d, SettleSend(d, m, c).states)
  {
    hide Explained;
    var op, i := DoSend(c), m.index;
    match c.outcome
    case Refused => StepWritten(op, i, d, m, SetStep(m, Current(m).(failed := true)).(halted := Some(SendFailed)));
    case Ambiguous => StepWritten(op, i, d, m, SetStep(m, Current(m).(failed := true)).(halted := Some(AmbiguousSend)));
    case Threw => SameSteps(op, i, d, m, m.(halted := Some(SendStopped)));
    case Succeeded(at) =>
      SameSteps(op, i, d, m, m.(halted := Some(UnknownReceipt)));
      if at >= 1 {
        var sent := SetStep(m, Current(m).(status := Sent, at := Some(at)));
        StepWritten(op, i, d, m, sent);
        StepWritten(op, i, d, m, sent.(halted := Some(SendStopped)));
      }
  }

  lemma SendOpenedExplained(d: Disk, m: Main, c: SendCourse)
    requires Opened(d, m)
    ensures Explained(DoSend(c), m.index, d, SendOpened(d, c).states)
  {
    hide Expected, HasOpenIntent, Explained, SettleSend;
    var op, i := DoSend(c), m.index;
    NothingExplained(op, i, d);
    SameSteps(op, i, d, m, m.(halted := Some(ApprovedChanged)));
    SameSteps(op, i, d, m, m.(halted := Some(BudgetExhausted)));
    SameSteps(op, i, d, m, m.(halted := Some(SendStopped)));
    if Selectable(m) && Current(m).status.Prepared? {
      var n := SetStep(m, Current(m).(status := PostIntent)).(posts := m.posts + 1);
      var d1 := Put(d, n);
      StepWritten(op, i, d, m, n);
      StepWritten(op, i, d, m, n.(halted := Some(SendStopped)));
      var d2 := d1.(postsMade := d1.postsMade + 1);
      RequestExplained(op, i, d1, d2);
      ExplainedJoins(op, i, d, [d1], [d2]);
      assert [d1] + [d2] == [d1, d2];
      SettleSendExplained(d1, n, c);
      SettleSendExplained(d2, n, c);
      ExplainedJoins(op, i, d, [d1], SettleSend(d1, n, c).states);
      ExplainedJoins(op, i, d, [d1, d2], SettleSend(d2, n, c).states);
    }
  }

  lemma RequestExplained(op: Operation, index: nat, d: Disk, e: Disk)
    requires e.main == d.main && e.sends == d.sends
    ensures Explained(op, index, d, [e])
  {
    hide Places, Takes, Words, Analyses, Complete;
  }

  lemma ReceiveIsExplained(d: Disk, c: ReceiveCourse)
    requires Inv(d)
    ensures Explained(DoReceive(c), IndexOf(d), d, ReceiveStep(d, c).states)
  {
    hide Inv, Open, ReceiveOpened, Explains;
    var op, index := DoReceive(c), IndexOf(d);
    OpenExplained(op, index, d, false);
    OpenKeepsIndex(d, false);
    OpenSound(d, false);
    var opening := Open(d, false);
    if opening.result.Ok? {
      var e := Last(d, opening.states);
      ReceiveOpenedExplained(e, e.main.value, c);
      ExplainedJoins(op, index, d, opening.states, ReceiveOpened(e, c).states);
    }
  }

  lemma ReceiveOpenedExplained(d: Disk, m: Main, c: ReceiveCourse)
    requires Opened(d, m)
    ensures Explained(DoReceive(c), m.index, d, ReceiveOpened(d, c).states)
  {
    hide Expected, HasOpenIntent, Explained, CompleteReceipt, ReadOnce;
    var op, i := DoReceive(c), m.index;
    NothingExplained(op, i, d);
    SameSteps(op, i, d, m, m.(halted := Some(BudgetExhausted)));
    if Selectable(m) {
      var failed := SetStep(m, Current(m).(failed := true));
      StepWritten(op, i, d, m, failed.(halted := Some(StaleCursor)));
      StepWritten(op, i, d, m, failed.(halted := Some(ReceiptFailed)));
      if Current(m).status.Received? {
        CompleteReceiptExplained(d, m, c);
      } else if Current(m).status.Sent? || Current(m).status.SentReconciled? {
        ReadOnceExplained(d, m, c);
      }
    }
  }

  lemma CompleteReceiptExplained(d: Disk, m: Main, c: ReceiveCourse)
    requires d.main == Some(m) && |m.steps| == STEPS && m.index < STEPS && Current(m).status.Received?
    ensures Explained(DoReceive(c), m.index, d, CompleteReceipt(d, m, c).states)
  {
    hide Explained;
    var op, i := DoReceive(c), m.index;
    NothingExplained(op, i, d);
    SameSteps(op, i, d, m, m.(halted := Some(EvidenceMismatch)));
    SameSteps(op, i, d, m, m.(halted := Some(CursorChanged)));
    StepWritten(op, i, d, m, Acknowledge(m));
  }

  lemma AfterReceiptExplained(d: Disk, m: Main, c: ReceiveCourse)
    requires d.main == Some(m) && |m.steps| == STEPS && m.index < STEPS && Current(m).status.Received?
    ensures Explained(DoReceive(c), m.index, d, AfterReceipt(d, m, c).states)
  {
    CompleteReceiptExplained(d, m, c);
    hide Explained;
    var op, i := DoReceive(c), m.index;
    StepWritten(op, i, d, m, FailedAt(m, i).(halted := Some(ReceiptFailed)));
    var finish := CompleteReceipt(d, m, c);
    if c.completed && finish.result.Err? {
      var e := Last(d, finish.states);
      StepWritten(op, i, e, e.main.value, FailedAt(LeftInMemory(m, c), i).(halted := Some(ReceiptFailed)));
      ExplainedJoins(op, i, d, finish.states, HaltNow(e, FailedAt(LeftInMemory(m, c), i), ReceiptFailed).states);
    }
  }

  lemma AfterReadExplained(d: Disk, m: Main, c: ReceiveCourse)
    requires d.main == Some(m) && |m.steps| == STEPS && m.index < STEPS && Current(m).status.GetIntent?
    ensures Explained(DoReceive(c), m.index, d, AfterRead(d, m, c).states)
  {
    hide Explained, AfterReceipt;
    var op, i := DoReceive(c), m.index;
    StepWritten(op, i, d, m, FailedAt(m, i).(halted := Some(ReceiptFailed)));
    if c.persisted.Some? {
      var n := SetStep(m, Current(m).(status := Received, inboundTask := c.persisted));
      StepWritten(op, i, d, m, n);
      StepWritten(op, i, d, m, FailedAt(n, i).(halted := Some(ReceiptFailed)));
      AfterReceiptExplained(Put(d, n), n, c);
      ExplainedJoins(op, i, d, [Put(d, n)], AfterReceipt(Put(d, n), n, c).states);
    }
  }

  lemma ReadOnceExplained(d: Disk, m: Main, c: ReceiveCourse)
    requires d.main == Some(m) && |m.steps| == STEPS && m.index < STEPS
    requires Current(m).status.Sent? || Current(m).status.SentReconciled?
    ensures Explained(DoReceive(c), m.index, d, ReadOnce(d, SetStep(m, Current(m).(status := GetIntent)).(gets := m.gets + 1), c).states)
  {
    hide Explained, AfterRead;
    var op, i := DoReceive(c), m.index;
    var n := SetStep(m, Current(m).(status := GetIntent)).(gets := m.gets + 1);
    var d1 := Put(d, n);
    var d2 := d1.(getsMade := d1.getsMade + 1);
    StepWritten(op, i, d, m, n);
    StepWritten(op, i, d, m, FailedAt(n, i).(halted := Some(ReceiptFailed)));
    AfterReadExplained(d1, n, c);
    AfterReadExplained(d2, n, c);
    RequestExplained(op, i, d1, d2);
    ExplainedJoins(op, i, d, [d1], [d2]);
    assert [d1] + [d2] == [d1, d2];
    ExplainedJoins(op, i, d, [d1], AfterRead(d1, n, c).states);
    ExplainedJoins(op, i, d, [d1, d2], AfterRead(d2, n, c).states);
  }

  lemma WorkIsExplained(d: Disk, c: WorkCourse)
    requires Inv(d)
    ensures Explained(DoWork(c), IndexOf(d), d, WorkStep(d, c).states)
  {
    hide Inv, Open, WorkOpened, Explains;
    var op, index := DoWork(c), IndexOf(d);
    OpenExplained(op, index, d, false);
    OpenKeepsIndex(d, false);
    OpenSound(d, false);
    var opening := Open(d, false);
    if opening.result.Ok? {
      var e := Last(d, opening.states);
      WorkOpenedExplained(e, e.main.value, c);
      ExplainedJoins(op, index, d, opening.states, WorkOpened(e, c).states);
    }
  }

  /** A write that leaves the steps alone and changes one analysis. */
  lemma AnalysisWritten(op: Operation, index: nat, d: Disk, m: Main, n: Main, x: Alias, y: Analysis)
    requires d.main == Some(m) && n.steps == m.steps && n.analyses == m.analyses[x := y]
    requires AnalysisExplained(op, d, x, y)
    ensures Explained(op, index, d, [Put(d, n)])
  {
    hide Places, Takes, Words, Analyses, Complete;
  }

  lemma WorkOpenedExplained(d: Disk, m: Main, c: WorkCourse)
    requires d.main == Some(m)
    ensures Explained(DoWork(c), m.index, d, WorkOpened(d, c).states)
  {
    hide Explained, Expected, HasOpenIntent;
    var op, i := DoWork(c), m.index;
    NothingExplained(op, i, d);
    SameSteps(op, i, d, m, m.(halted := Some(AnalysisChanged)));
    var prior := if c.alias in m.analyses then Some(m.analyses[c.alias]) else None;
    if prior.None? || prior.value.packet == c.packet {
      var begun := if prior.Some? then prior.value else Analysis(c.packet, false, false);
      var m1 := m.(analyses := m.analyses[c.alias := begun]);
      var d1 := Put(d, m1);
      var m2 := if c.delegated && m.index != STEPS then m1.(analyses := m1.analyses[c.alias := begun.(delegated := true)]) else m1;
      var d2 := Put(d1, m2);
      AnalysisWritten(op, i, d, m, m1, c.alias, begun);
      AnalysisWritten(op, i, d1, m1, m2, c.alias, m2.analyses[c.alias]);
      ExplainedJoins(op, i, d, [d1], [d2]);
      assert [d1] + [d2] == [d1, d2];
      SameSteps(op, i, d2, m2, m2.(halted := Some(AnalysisFailed)));
      ExplainedJoins(op, i, d, [d1, d2], [Put(d2, m2.(halted := Some(AnalysisFailed)))]);
      if c.succeeded {
        var done := m2.analyses[c.alias].(evidence := true);
        var m3 := m2.(analyses := m2.analyses[c.alias := done], complete := m2.complete || m.index == STEPS);
        AnalysisWritten(op, i, d2, m2, m3, c.alias, done);
        AnalysisWritten(op, i, d2, m2, m3.(halted := Some(AnalysisFailed)), c.alias, done);
        ExplainedJoins(op, i, d, [d1, d2], [Put(d2, m3)]);
        ExplainedJoins(op, i, d, [d1, d2], [Put(d2, m3.(halted := Some(AnalysisFailed)))]);
        assert [d1, d2] + [Put(d2, m3)] == [d1, d2, Put(d2, m3)];
      }
    }
  }

  // -------------------------------------------------------------------- the repairs

  lemma RecoverExplained(d: Disk, evidence: Option<Evidence>)
    ensures Explained(DoRecoverRead(evidence), IndexOf(d), d, RecoverRead(d, evidence).states)
  {
    hide Places, Words, Analyses;
    var op, index := DoRecoverRead(evidence), IndexOf(d);
    var t := RecoverRead(d, evidence);
    if t.states != [] && !d.main.value.steps[0].status.ReceivedReconciled? {
      var m := d.main.value;
      var receipt := ReadReceipt(evidence.value.inboundTask, m);
      InstallExplained(op, index, d, m, receipt);
    }
  }

  lemma InstallExplained(op: Operation, index: nat, d: Disk, m: Main, receipt: ReadReceipt)
    requires d.main == Some(m) && RecoverableRead(m) && op.DoRecoverRead? && op.evidence.Some?
    requires op.evidence.value.inboundTask == receipt.inboundTask
    ensures var phase := if d.transition.Some? then Some(d.transition.value.phase) else None;
      var d3 := Put(d.(transition := Some(Transition(ReceiptVerified, receipt))), AppliedRead(m, receipt));
      Explained(op, index, d, VerifiedStates(d, phase, receipt) + [d3, d3.(transition := Some(Transition(Applied, receipt)))])
  {
    hide Explained;
    var phase := if d.transition.Some? then Some(d.transition.value.phase) else None;
    var first := VerifiedStates(d, phase, receipt);
    VerifiedExplained(op, index, d, phase, receipt);
    var e := Last(d, first);
    var d2 := d.(transition := Some(Transition(ReceiptVerified, receipt)));
    var n := AppliedRead(m, receipt);
    assert e.main == Some(m) && e.sends == d.sends;
    var d3 := Put(d2, n);
    var d4 := d3.(transition := Some(Transition(Applied, receipt)));
    ReplacedExplained(op, index, e, m, receipt, d3);
    RequestExplained(op, index, d3, d4);
    ExplainedJoins(op, index, e, [d3], [d4]);
    assert [d3] + [d4] == [d3, d4];
    ExplainedJoins(op, index, d, first, [d3, d4]);
  }

  lemma VerifiedExplained(op: Operation, index: nat, d: Disk, phase: Option<Phase>, receipt: ReadReceipt)
    ensures Explained(op, index, d, VerifiedStates(d, phase, receipt))
  {
    hide Places, Takes, Words, Analyses, Complete;
  }

  lemma ReplacedExplained(op: Operation, index: nat, e: Disk, m: Main, receipt: ReadReceipt, d3: Disk)
    requires e.main == Some(m) && RecoverableRead(m) && op.DoRecoverRead? && op.evidence.Some?
    requires op.evidence.value.inboundTask == receipt.inboundTask
    requires d3.main == Some(AppliedRead(m, receipt)) && d3.sends == e.sends
    ensures Explained(op, index, e, [d3])
  {
    hide Places, Words, Analyses;
  }

  lemma PrepareReconciliationExplained(d: Disk, n: nat, cursor: nat, fits: bool)
    ensures Explained(DoPrepareReconciliation(n, cursor, fits), IndexOf(d), d, PrepareReconciliation(d, n, cursor, fits).states)
  {
    hide RecoverableSend, Places, Takes, Words, Analyses, Complete;
  }

  lemma ObserveExplained(d: Disk, n: nat, fits: bool, authorized: bool, outcome: Observation)
    ensures Explained(DoObserve(n, fits, authorized, outcome), IndexOf(d), d, Observe(d, n, fits, authorized, outcome).states)
  {
    hide RecoverableSend, Places, Takes, Words, Analyses, Complete;
  }

  lemma ApplyExplained(d: Disk, n: nat, fits: bool, authority: bool)
    ensures Explained(DoApplySend(n, fits, authority), IndexOf(d), d, ApplySend(d, n, fits, authority).states)
  {
    hide RecoverableSend, Takes, Words, Analyses;
    var op, index := DoApplySend(n, fits, authority), IndexOf(d);
    if ApplySend(d, n, fits, authority).states != [] {
      var m, r := d.main.value, d.sends[n];
      if m.steps[n - 1].sendRecovery.None? {
        ApplyFirstExplained(op, index, d, m, r, SendReceipt(n, r.status.at, r.original), fits);
      }
    }
  }

  lemma ApplyFirstExplained(op: Operation, index: nat, d: Disk, m: Main, r: SendRecord, receipt: SendReceipt, fits: bool)
    requires d.main == Some(m) && |m.steps| == STEPS && 1 <= receipt.step <= STEPS && op.DoApplySend? && op.n == receipt.step
    requires receipt.step in d.sends && d.sends[receipt.step] == r && r.status == Observed(receipt.at)
    ensures Explained(op, index, d, ApplyFirst(d, m, r, receipt, fits).states)
  {
    NothingExplained(op, index, d);
    if ApplyFirst(d, m, r, receipt, fits).states != [] {
      PreparedHasText(m, receipt.step);
      hide RecoverableSend, Takes, Words, Analyses;
      var next := AppliedSend(m, receipt);
      var intent := r.(apply := Some(Apply(false, receipt, next)));
      var d1 := d.(sends := d.sends[receipt.step := intent]);
      var d2 := Put(d1, next);
      var d3 := d2.(sends := d2.sends[receipt.step := intent.(apply := Some(Apply(true, receipt, next)))]);
      assert Explained(op, index, d, [d1]);
      assert Explained(op, index, d1, [d2]) && Explained(op, index, d, [d2]);
      assert Explained(op, index, d2, [d3]);
      ExplainedJoins(op, index, d1, [d2], [d3]);
      ExplainedJoins(op, index, d, [d2], [d3]);
      assert [d2] + [d3] == [d2, d3] && [] + [d2, d3] == [d2, d3];
      ExplainedJoins(op, index, d, [d1], [d2, d3]);
    }
  }

  lemma PreparedHasText(m: Main, n: nat)
    requires RecoverableSend(m, n)
    ensures |m.steps| == STEPS && 1 <= n <= STEPS && m.steps[n - 1].status.PostIntent?
  {
  }

  lemma OperationExplained(d: Disk, op: Operation)
    requires Inv(d)
    ensures Explained(op, IndexOf(d), d, TraceOf(d, op).states)
  {
    hide Inv, Explained, PrepareStep, SendStep, ReceiveStep, WorkStep, RecoverRead, PrepareReconciliation, Observe, ApplySend;
    match op
    case DoPrepare(c) => PrepareExplained(d, c);
    case DoSend(c) => SendIsExplained(d, c);
    case DoReceive(c) => ReceiveIsExplained(d, c);
    case DoWork(c) => WorkIsExplained(d, c);
    case DoRecoverRead(evidence) => RecoverExplained(d, evidence);
    case DoPrepareReconciliation(n, cursor, fits) => PrepareReconciliationExplained(d, n, cursor, fits);
    case DoObserve(n, fits, authorized, outcome) => ObserveExplained(d, n, fits, authorized, outcome);
    case DoApplySend(n, fits, authority) => ApplyExplained(d, n, fits, authority);
  }

  // -------------------------------------------------------------- whole runs, explained

  /** Some send of the run worked on this step and got this receipt, or its observation saw the message there. */
  ghost predicate WasPlaced(runs: seq<Attempt>, i: nat, at: nat) {
    exists k :: 0 <= k < |runs| && PlacedBy(runs, k, i, at)
  }

  ghost predicate PlacedBy(runs: seq<Attempt>, k: nat, i: nat, at: nat)
    requires k < |runs|
  {
    var op := runs[k].operation;
    || (op.DoSend? && op.send.outcome == Succeeded(at) && at >= 1 && IndexOf(AfterAll(runs[..k])) == i)
    || (op.DoObserve? && op.n == i + 1 && op.outcome == Observed(at))
  }

  ghost predicate WasTaken(runs: seq<Attempt>, i: nat, task: string) {
    exists k :: 0 <= k < |runs| && Takes(runs[k].operation, IndexOf(AfterAll(runs[..k])), i, task)
  }

  ghost predicate WasWorded(runs: seq<Attempt>, i: nat, text: Text) {
    exists k :: 0 <= k < |runs| && Words(runs[k].operation, IndexOf(AfterAll(runs[..k])), i, text)
  }

  ghost predicate WasObserved(runs: seq<Attempt>, n: nat, outcome: Observation) {
    exists k :: 0 <= k < |runs| && Observes(runs[k].operation, n, outcome)
  }

  predicate Observes(op: Operation, n: nat, outcome: Observation) {
    op.DoObserve? && op.n == n && op.outcome == outcome
  }

  ghost predicate WasAnalysed(runs: seq<Attempt>, x: Alias, packet: Packet) {
    exists k :: 0 <= k < |runs| && Analyses(runs[k].operation, x, packet)
  }

  ghost predicate StepTold(runs: seq<Attempt>, i: nat, s: Step) {
    && Complete(s)
    && (s.at.Some? ==> WasPlaced(runs, i, s.at.value))
    && (s.inboundTask.Some? ==> WasTaken(runs, i, s.inboundTask.value))
    && (s.text.Some? ==> WasWorded(runs, i, s.text.value))
  }

  ghost predicate Told(runs: seq<Attempt>, d: Disk) {
    && (forall i | 0 <= i < STEPS :: StepTold(runs, i, StepOf(d, i)))
    && (forall n | n in d.sends && (d.sends[n].status.Observed? || d.sends[n].status.NotObserved?) ::
          WasObserved(runs, n, d.sends[n].status))
    && (d.main.Some? ==> forall x | x in d.main.value.analyses :: WasAnalysed(runs, x, d.main.value.analyses[x].packet))
  }

  lemma StepStaysTold(runs: seq<Attempt>, k: nat, a: Disk, b: Disk, i: nat)
    requires k < |runs| && Told(runs, a) && i < STEPS
    requires StepExplained(runs[k].operation, IndexOf(AfterAll(runs[..k])), a, i, StepOf(b, i))
    ensures StepTold(runs, i, StepOf(b, i))
  {
    hide AfterAll, Complete, Words, IndexOf, Takes, StepOf;
    var op, index, s, t := runs[k].operation, IndexOf(AfterAll(runs[..k])), StepOf(a, i), StepOf(b, i);
    assert StepTold(runs, i, s);
    if t.at != s.at {
      if op.DoSend? {
        assert PlacedBy(runs, k, i, t.at.value);
      } else {
        var n: nat := i + 1;
        assert WasObserved(runs, n, Observed(t.at.value));
        var j :| 0 <= j < |runs| && Observes(runs[j].operation, n, Observed(t.at.value));
        assert PlacedBy(runs, j, i, t.at.value);
      }
    }
  }

  lemma SendStaysTold(runs: seq<Attempt>, k: nat, a: Disk, b: Disk, n: nat)
    requires k < |runs| && Told(runs, a) && SendsExplained(runs[k].operation, a, b)
    requires n in b.sends && (b.sends[n].status.Observed? || b.sends[n].status.NotObserved?)
    ensures WasObserved(runs, n, b.sends[n].status)
  {
    if n !in a.sends || a.sends[n].status != b.sends[n].status {
      assert Observes(runs[k].operation, n, b.sends[n].status);
    }
  }

  lemma AnalysisStaysTold(runs: seq<Attempt>, k: nat, a: Disk, x: Alias, y: Analysis)
    requires k < |runs| && Told(runs, a) && AnalysisExplained(runs[k].operation, a, x, y)
    ensures WasAnalysed(runs, x, y.packet)
  {
    hide StepTold, WasObserved;
  }

  lemma WriteTold(runs: seq<Attempt>, k: nat, a: Disk, b: Disk)
    requires k < |runs| && Told(runs, a) && Explains(runs[k].operation, IndexOf(AfterAll(runs[..k])), a, b)
    ensures Told(runs, b)
  {
    hide AfterAll, StepTold, StepExplained, WasObserved, WasAnalysed, AnalysisExplained, SendsExplained, IndexOf, StepOf;
    forall i | 0 <= i < STEPS
      ensures StepTold(runs, i, StepOf(b, i))
    {
      StepStaysTold(runs, k, a, b, i);
    }
    forall n | n in b.sends && (b.sends[n].status.Observed? || b.sends[n].status.NotObserved?)
      ensures WasObserved(runs, n, b.sends[n].status)
    {
      SendStaysTold(runs, k, a, b, n);
    }
    if b.main.Some? {
      forall x | x in b.main.value.analyses
        ensures WasAnalysed(runs, x, b.main.value.analyses[x].packet)
      {
        AnalysisStaysTold(runs, k, a, x, b.main.value.analyses[x]);
      }
    }
  }

  lemma {:induction false} WritesTold(runs: seq<Attempt>, k: nat, d: Disk, states: seq<Disk>)
    requires k < |runs| && Told(runs, d) && Explained(runs[k].operation, IndexOf(AfterAll(runs[..k])), d, states)
    ensures Told(runs, Last(d, states))
    decreases |states|
  {
    hide Explains, Told, AfterAll, IndexOf;
    if states != [] {
      var m := |states| - 1;
      var front := states[..m];
      forall j | 0 <= j < m
        ensures Explains(runs[k].operation, IndexOf(AfterAll(runs[..k])), Before(d, front, j), front[j])
      {
        assert Before(d, front, j) == Before(d, states, j);
      }
      WritesTold(runs, k, d, front);
      assert Before(d, states, m) == Last(d, front);
      WriteTold(runs, k, Last(d, front), states[m]);
    }
  }

  lemma MoreRunsStep(runs: seq<Attempt>, a: Attempt, i: nat, s: Step)
    requires StepTold(runs, i, s)
    ensures StepTold(runs + [a], i, s)
  {
    hide AfterAll, Complete, Takes, Words, IndexOf;
    var all := runs + [a];
    assert forall k | 0 <= k < |runs| :: all[k] == runs[k] && all[..k] == runs[..k];
    if s.at.Some? {
      var k :| 0 <= k < |runs| && PlacedBy(runs, k, i, s.at.value);
      assert PlacedBy(all, k, i, s.at.value);
    }
    if s.inboundTask.Some? {
      var k :| 0 <= k < |runs| && Takes(runs[k].operation, IndexOf(AfterAll(runs[..k])), i, s.inboundTask.value);
      assert Takes(all[k].operation, IndexOf(AfterAll(all[..k])), i, s.inboundTask.value);
    }
    if s.text.Some? {
      var k :| 0 <= k < |runs| && Words(runs[k].operation, IndexOf(AfterAll(runs[..k])), i, s.text.value);
      assert Words(all[k].operation, IndexOf(AfterAll(all[..k])), i, s.text.value);
    }
  }

  lemma MoreRunsObserved(runs: seq<Attempt>, a: Attempt, n: nat, outcome: Observation)
    requires WasObserved(runs, n, outcome)
    ensures WasObserved(runs + [a], n, outcome)
  {
    var k :| 0 <= k < |runs| && Observes(runs[k].operation, n, outcome);
    assert (runs + [a])[k] == runs[k];
  }

  lemma MoreRunsAnalysed(runs: seq<Attempt>, a: Attempt, x: Alias, packet: Packet)
    requires WasAnalysed(runs, x, packet)
    ensures WasAnalysed(runs + [a], x, packet)
  {
    var k :| 0 <= k < |runs| && Analyses(runs[k].operation, x, packet);
    assert (runs + [a])[k] == runs[k];
  }

  lemma MoreRunsTold(runs: seq<Attempt>, a: Attempt, d: Disk)
    requires Told(runs, d)
    ensures Told(runs + [a], d)
  {
    hide StepTold, WasObserved, WasAnalysed, StepOf;
    forall i | 0 <= i < STEPS
      ensures StepTold(runs + [a], i, StepOf(d, i))
    {
      MoreRunsStep(runs, a, i, StepOf(d, i));
    }
    forall n | n in d.sends && (d.sends[n].status.Observed? || d.sends[n].status.NotObserved?)
      ensures WasObserved(runs + [a], n, d.sends[n].status)
    {
      MoreRunsObserved(runs, a, n, d.sends[n].status);
    }
    if d.main.Some? {
      forall x | x in d.main.value.analyses
        ensures WasAnalysed(runs + [a], x, d.main.value.analyses[x].packet)
      {
        MoreRunsAnalysed(runs, a, x, d.main.value.analyses[x].packet);
      }
    }
  }

  /**
   Whatever runs, repairs and crashes: every step on file carries the position of its own receipt, or of its own
   observation, the task its own receipt or repair named, and the text it was prepared with; and it has what its status says.
   */
  lemma {:induction false} RecordsAreExplained(runs: seq<Attempt>)
    ensures Told(runs, AfterAll(runs))
    decreases |runs|
  {
    if runs == [] {
      NothingIsTold();
    } else {
      var front, a := runs[..|runs| - 1], runs[|runs| - 1];
      var d := AfterAll(front);
      RecordsAreExplained(front);
      InvAfterAll(front);
      MoreRunsTold(front, a, d);
      assert front + [a] == runs;
      hide Told, Inv, Explains, TraceOf, IndexOf;
      OperationExplained(d, a.operation);
      var states := TraceOf(d, a.operation).states;
      var done := if a.cut <= |states| then states[..a.cut] else states;
      forall k | 0 <= k < |done|
        ensures Explains(a.operation, IndexOf(d), Before(d, done, k), done[k])
      {
        assert Before(d, done, k) == Before(d, states, k);
      }
      WritesTold(runs, |runs| - 1, d, done);
    }
  }

  lemma NothingIsTold()
    ensures Told([], AfterAll([]))
  {
  }
}
