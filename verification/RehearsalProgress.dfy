/** How each operation of the rehearsal ends, and that eight steps and the synthesis can always be completed. */
module RehearsalProgress {
  import opened Wrappers
  import opened Rehearsal
  import opened RehearsalSafety

  /** A manifest on which an operation may go on. */
  ghost predicate Ready(d: Disk, m: Main) {
    Inv(d) && d.main == Some(m) && |m.steps| == STEPS && m.halted.None? && !HasOpenIntent(m)
  }

  lemma ReadyOpens(d: Disk, m: Main, create: bool)
    requires Ready(d, m)
    ensures Open(d, create) == Trace([], Ok(()))
  {
    hide Expected, HasOpenIntent;
  }

  // --------------------------------------------------------------------- preparing

  /** A planned or prepared step takes its text once, when it could be built and stored and no approval was spent on it. */
  lemma PrepareDecides(d: Disk, m: Main, c: PrepareCourse)
    requires Ready(d, m) && Selectable(m) && (Current(m).status.Planned? || Current(m).status.Prepared?)
    ensures var t := PrepareStep(d, c); var e := Last(d, t.states);
      var changed := c.text.Some? && Current(m).text.Some? && Current(m).text != c.text;
      && (t.result.Ok? <==> c.text.Some? && !changed && c.stored && !c.spent)
      && (t.result.Ok? ==> e == Put(d, SetStep(m, Current(m).(status := Prepared, text := c.text))))
      && (changed ==> e == Put(d, m.(halted := Some(PayloadChanged))))
      && (c.text.Some? && !changed && c.stored && c.spent ==> e == Put(d, m.(halted := Some(ApprovalSpent))))
      && (c.text.None? || (!changed && !c.stored) ==> t == Trace([], Err(NotReady)))
  {
    ReadyOpens(d, m, true);
    hide Inv, Expected, HasOpenIntent;
  }

  // ----------------------------------------------------------------------- sending

  predicate Proceeds(c: SendCourse) {
    c.exact && c.approved && c.intact && c.started && c.alone && c.intentSaved
  }

  predicate GotReceipt(c: SendCourse) {
    c.outcome.Succeeded? && c.outcome.at >= 1
  }

  /** The step is sent at exactly the receipt's number; every other outcome has its own halt, and only what proceeds may post. */
  lemma SendDecides(d: Disk, m: Main, c: SendCourse)
    requires Ready(d, m) && Selectable(m) && Current(m).status.Prepared?
    ensures var t := SendStep(d, c); var e := Last(d, t.states);
      && e.main.Some?
      && var n := e.main.value;
      && (t.result.Ok? <==> Proceeds(c) && GotReceipt(c) && c.resultSaved)
      && (t.result.Ok? ==>
            n == SetStep(m, Current(m).(status := Sent, at := Some(c.outcome.at))).(posts := m.posts + 1))
      && e.postsMade == d.postsMade + (if Proceeds(c) && c.posted then 1 else 0) && e.getsMade == d.getsMade
      && n.posts == m.posts + (if c.exact && c.approved && c.intact && c.started && c.alone then 1 else 0)
      && (n.halted == Some(ApprovedChanged) <==> c.exact && c.approved && !c.intact)
      && (n.halted == Some(SendFailed) <==> Proceeds(c) && c.outcome.Refused?)
      && (n.halted == Some(AmbiguousSend) <==> Proceeds(c) && c.outcome.Ambiguous?)
      && (n.halted == Some(UnknownReceipt) <==> Proceeds(c) && c.outcome.Succeeded? && !GotReceipt(c))
      && (n.halted == Some(SendStopped) <==>
            c.exact && c.approved && c.intact && c.started
            && (!c.alone || !c.intentSaved || c.outcome.Threw? || (GotReceipt(c) && !c.resultSaved)))
      && (!c.exact ==> t == Trace([], Err(NotExact)))
      && (c.exact && (!c.approved || (c.intact && !c.started)) ==> t == Trace([], Err(NotReady)))
  {
    ReadyOpens(d, m, false);
    PreparedCounts(d, m);
    hide Inv, Expected, HasOpenIntent;
  }

  // --------------------------------------------------------------------- receiving

  predicate ReadsWell(c: ReceiveCourse) {
    c.ready && c.intentSaved && c.got && c.persisted.Some? && c.receiptSaved && c.completed
  }

  predicate EndsWell(c: ReceiveCourse) {
    ReachesEnd(c) && c.endSaved
  }

  /** A sent step is received at the next position only, and then acknowledged with the task its receipt named. */
  lemma ReceiveDecides(d: Disk, m: Main, c: ReceiveCourse)
    requires Ready(d, m) && Selectable(m) && (Current(m).status.Sent? || Current(m).status.SentReconciled?)
    ensures var t := ReceiveStep(d, c); var e := Last(d, t.states);
      var mine, next := c.step == m.index + 1, Current(m).at == Some(c.cursor + 1);
      && e.main.Some?
      && var n := e.main.value;
      && (t.result.Ok? <==> mine && next && ReadsWell(c) && EndsWell(c))
      && (t.result.Ok? ==>
            n == SetStep(m, Current(m).(status := Acknowledged, inboundTask := c.persisted)).(index := m.index + 1, gets := m.gets + 1))
      && e.getsMade == d.getsMade + (if mine && next && c.ready && c.intentSaved && c.got then 1 else 0)
      && e.postsMade == d.postsMade
      && (n.halted == Some(StaleCursor) <==> mine && !next)
      && (n.halted == Some(ReceiptFailed) <==> mine && next && !(ReadsWell(c) && EndsWell(c)))
      && (!mine ==> t == Trace([], Err(WrongStep)))
  {
    hide Inv, Open, Expected, HasOpenIntent, ReadOnce, ReadsWell, EndsWell;
    ReadyOpens(d, m, false);
    PreparedCounts(d, m);
    assert ReceiveStep(d, c).states == [] + ReceiveOpened(d, c).states == ReceiveOpened(d, c).states;
    NeedsToBeReady(c);
    if c.step != m.index + 1 {
    } else if Current(m).at != Some(c.cursor + 1) {
    } else if c.ready {
      var n := SetStep(m, Current(m).(status := GetIntent)).(gets := m.gets + 1);
      ReadDecides(d, n, c);
      assert SetStep(n, Current(n).(status := Acknowledged, inboundTask := c.persisted)).(index := n.index + 1)
          == SetStep(m, Current(m).(status := Acknowledged, inboundTask := c.persisted)).(index := m.index + 1, gets := m.gets + 1);
    }
  }

  lemma NeedsToBeReady(c: ReceiveCourse)
    ensures ReadsWell(c) ==> c.ready
  {
  }

  lemma ReadDecides(d: Disk, m: Main, c: ReceiveCourse)
    requires |m.steps| == STEPS && m.index < STEPS && m.halted.None? && c.ready
    ensures var t := ReadOnce(d, m, c); var e := Last(d, t.states);
      && t.states != [] && e.main.Some?
      && var n := e.main.value;
      && (t.result.Ok? <==> ReadsWell(c) && EndsWell(c))
      && (t.result.Ok? ==> n == SetStep(m, Current(m).(status := Acknowledged, inboundTask := c.persisted)).(index := m.index + 1))
      && (t.result.Err? ==> n.halted == Some(ReceiptFailed))
      && e.getsMade == d.getsMade + (if c.intentSaved && c.got then 1 else 0) && e.postsMade == d.postsMade
  {
    hide AfterRead;
    var d1 := Put(d, m);
    if c.intentSaved {
      AfterReadDecides(if c.got then d1.(getsMade := d1.getsMade + 1) else d1, m, c);
    }
  }

  lemma AfterReadDecides(d: Disk, m: Main, c: ReceiveCourse)
    requires d.main == Some(m) && |m.steps| == STEPS && m.index < STEPS && m.halted.None? && c.ready && c.intentSaved
    ensures var t := AfterRead(d, m, c); var e := Last(d, t.states);
      && t.states != [] && e.main.Some?
      && var n := e.main.value;
      && (t.result.Ok? <==> ReadsWell(c) && EndsWell(c))
      && (t.result.Ok? ==> n == SetStep(m, Current(m).(status := Acknowledged, inboundTask := c.persisted)).(index := m.index + 1))
      && (t.result.Err? ==> n.halted == Some(ReceiptFailed))
      && e.getsMade == d.getsMade && e.postsMade == d.postsMade
  {
    assert forall s: Step, u: Step :: SetStep(SetStep(m, s), u) == SetStep(m, u);
  }

  /** A receipt that is already durable is completed without another read. */
  lemma ResumeDecides(d: Disk, m: Main, c: ReceiveCourse)
    requires Ready(d, m) && Selectable(m) && Current(m).status.Received?
    ensures var t := ReceiveStep(d, c); var e := Last(d, t.states); var mine := c.step == m.index + 1;
      && e.main.Some? && e.getsMade == d.getsMade && e.postsMade == d.postsMade
      && (t.result.Ok? <==> mine && EndsWell(c))
      && (t.result.Ok? ==> e == Put(d, SetStep(m, Current(m).(status := Acknowledged)).(index := m.index + 1)))
      && (mine && !c.evidence ==> e == Put(d, m.(halted := Some(EvidenceMismatch))))
      && (mine && c.evidence && !c.cursorFits ==> e == Put(d, m.(halted := Some(CursorChanged))))
      && (!mine || (c.evidence && c.cursorFits && !EndsWell(c)) ==> t.states == [])
  {
    ReadyOpens(d, m, false);
    hide Inv, Expected, HasOpenIntent;
  }

  // -------------------------------------------------------------------------- work

  /** An analysis is stored once per packet; its evidence follows only its own success, and only the synthesis completes. */
  lemma WorkDecides(d: Disk, m: Main, c: WorkCourse)
    requires Ready(d, m)
    ensures var t := WorkStep(d, c); var e := Last(d, t.states);
      var mine := IsWorkOf(m, c.alias);
      var known := c.alias in m.analyses;
      var other := known && m.analyses[c.alias].packet != c.packet;
      var done := known && m.analyses[c.alias].evidence;
      && e.main.Some?
      && var n := e.main.value;
      && (t.result.Ok? <==> mine && (m.complete || (c.valid && !other && (done || (c.succeeded && c.endSaved)))))
      && (t.result.Ok? && !m.complete && !done ==>
            && c.alias in n.analyses && n.analyses[c.alias].packet == c.packet && n.analyses[c.alias].evidence
            && (n.complete <==> m.index == STEPS) && n.steps == m.steps && n.index == m.index && n.halted.None?
            && (forall x | x != c.alias :: (x in n.analyses <==> x in m.analyses) && (x in m.analyses ==> n.analyses[x] == m.analyses[x])))
      && (n.halted == Some(AnalysisChanged) <==> mine && !m.complete && c.valid && other)
      && (n.halted == Some(AnalysisFailed) <==> mine && !m.complete && c.valid && !other && !done && !(c.succeeded && c.endSaved))
      && (!mine || m.complete || !c.valid || (done && !other) ==> t.states == [])
      && e.postsMade == d.postsMade && e.getsMade == d.getsMade
  {
    ReadyOpens(d, m, false);
    hide Inv, Expected, HasOpenIntent;
  }

  // ----------------------------------------------------------------------- repairs

  /** One observation per record, recorded as it turned out. */
  lemma ObserveDecides(d: Disk, n: nat, fits: bool, authorized: bool, outcome: Observation)
    ensures var t := Observe(d, n, fits, authorized, outcome); var e := Last(d, t.states);
      && (t.result.Ok? <==>
            && d.main.Some? && n in d.sends && fits && authorized && d.sends[n].status.Ready? && d.sends[n].attempts == 0
            && d.sends[n].original == d.main.value && RecoverableSend(d.main.value, n))
      && (t.result.Ok? ==>
            && e.sends == d.sends[n := e.sends[n]] && e.main == d.main && e.sends[n].attempts == 1
            && (forall at :: e.sends[n].status == Observed(at) <==> outcome == Observed(at))
            && (e.sends[n].status.NotObserved? <==> outcome.NotObserved?)
            && (e.sends[n].status.ObservationFailed? <==> !outcome.Observed? && !outcome.NotObserved?))
      && (t.result.Err? ==> t.states == [])
  {
    hide RecoverableSend;
  }

  /** A repaired send continues from the observed position, and nothing else of the manifest changes but the halt. */
  lemma SendRepairDecides(d: Disk, n: nat)
    requires d.main.Some? && n in d.sends && d.sends[n].apply.None? && RecoverableSend(d.main.value, n)
    ensures var t := ApplySend(d, n, true, true); var e := Last(d, t.states); var m, r := d.main.value, d.sends[n];
      && (t.result.Ok? <==> r.status == Observed(r.previousCursor + 1) && r.attempts == 1 && r.step == n && r.original == m)
      && (t.result.Ok? ==>
            && e.main.Some? && e.main.value.halted.None? && e.main.value.index == m.index
            && var s := e.main.value.steps[n - 1];
            && s.status.SentReconciled? && s.at == Some(r.previousCursor + 1) && s.text == m.steps[n - 1].text
            && s.sendRecovery.Some? && s.sendRecovery.value.at == r.previousCursor + 1 && s.sendRecovery.value.original == m
            && e.main.value == m.(halted := None, steps := m.steps[n - 1 := s])
            && e.sends[n].apply.Some? && e.sends[n].apply.value.done)
      && (t.result.Err? ==> t.states == [])
  {
  }

  /** A repaired receipt is the first step's, with the task the evidence names, and the second step is next. */
  lemma ReadRepairDecides(d: Disk, evidence: Option<Evidence>)
    requires d.main.Some? && d.transition.None? && RecoverableRead(d.main.value)
    ensures var t := RecoverRead(d, evidence); var e := Last(d, t.states); var m := d.main.value;
      && (t.result.Ok? <==> evidence.Some? && evidence.value.original == m)
      && (t.result.Ok? ==>
            && e.main.Some?
            && var s := e.main.value.steps[0];
            && s.status.ReceivedReconciled? && s.inboundTask == Some(evidence.value.inboundTask) && s.at == m.steps[0].at
            && s.text == m.steps[0].text && s.recovery == Some(ReadReceipt(evidence.value.inboundTask, m))
            && e.main.value == m.(halted := None, index := 1, steps := m.steps[0 := s])
            && e.transition == Some(Transition(Applied, ReadReceipt(evidence.value.inboundTask, m))))
      && (t.result.Err? ==> t.states == [])
  {
  }

  // ------------------------------------------------------------------ the whole relay

  /** What one step is sent as, where its message lands, and the task it becomes. */
  datatype Leg = Leg(text: Text, at: nat, task: string)

  function Uncut(op: Operation): Attempt {
    Attempt(op, 100)
  }

  function GoodSend(at: nat): SendCourse {
    SendCourse(true, true, true, true, true, true, true, Succeeded(at), true)
  }

  function GoodReceive(i: nat, leg: Leg): ReceiveCourse
    requires leg.at >= 1
  {
    ReceiveCourse(i + 1, leg.at - 1, true, true, true, Some(leg.task), true, true, true, true, true, true)
  }

  /** Preparing, sending and receiving step `i` without a crash. */
  function StepRuns(i: nat, leg: Leg): (runs: seq<Attempt>)
    requires leg.at >= 1
    ensures |runs| == 3
  {
    [Uncut(DoPrepare(PrepareCourse(Some(leg.text), true, false))), Uncut(DoSend(GoodSend(leg.at))), Uncut(DoReceive(GoodReceive(i, leg)))]
  }

  function RelayRuns(legs: seq<Leg>): seq<Attempt>
    requires forall i | 0 <= i < |legs| :: legs[i].at >= 1
  {
    if legs == [] then []
    else RelayRuns(legs[..|legs| - 1]) + StepRuns(|legs| - 1, legs[|legs| - 1])
  }

  function Synthesis(packet: Packet): Attempt {
    Uncut(DoWork(WorkCourse(Alice, packet, true, false, true, true)))
  }

  /** The first steps are acknowledged as given, and the rest is still planned. */
  ghost predicate Reached(d: Disk, legs: seq<Leg>) {
    && Inv(d) && |legs| <= STEPS && d.postsMade == d.getsMade == |legs|
    && (d.main.None? ==> legs == [])
    && (d.main.Some? ==>
          && var m := d.main.value;
          && |m.steps| == STEPS && m.index == m.posts == m.gets == |legs| && m.halted.None? && !m.complete && m.analyses == map[]
          && (forall i | 0 <= i < |legs| :: LegDone(m.steps[i], legs[i]))
          && (forall i | |legs| <= i < STEPS :: m.steps[i] == NewStep))
  }

  predicate LegDone(s: Step, leg: Leg) {
    s.status.Acknowledged? && s.text == Some(leg.text) && s.at == Some(leg.at) && s.inboundTask == Some(leg.task)
  }

  lemma {:induction false} AfterMore(runs: seq<Attempt>, a: Attempt)
    ensures AfterAll(runs + [a]) == After(AfterAll(runs), a)
  {
    assert (runs + [a])[..|runs|] == runs;
  }

  lemma UncutEnds(d: Disk, op: Operation)
    requires |TraceOf(d, op).states| <= 100
    ensures After(d, Uncut(op)) == Last(d, TraceOf(d, op).states)
  {
    hide TraceOf;
    var states := TraceOf(d, op).states;
    if |states| == 100 {
      assert states[..100] == states;
    }
  }

  /** The manifest a first preparation starts from. */
  lemma FirstPrepare(d: Disk, c: PrepareCourse)
    requires Inv(d) && d.main.None?
    ensures Ready(Put(d, NewMain), NewMain)
    ensures PrepareStep(d, c).states == [Put(d, NewMain)] + PrepareStep(Put(d, NewMain), c).states
  {
    NewMainFits();
    assert forall i | 0 <= i < STEPS :: NewMain.steps[i] == NewStep;
    ReadyOpens(Put(d, NewMain), NewMain, true);
    var e := Put(d, NewMain);
    assert Open(d, true) == Trace([e], Ok(())) by {
      hide PrepareOpened;
    }
    hide PrepareOpened, Open;
    assert [] + PrepareOpened(e, c).states == PrepareOpened(e, c).states;
  }

  lemma ReachedIsReady(d: Disk, legs: seq<Leg>)
    requires Reached(d, legs) && d.main.Some?
    ensures Ready(d, d.main.value)
    ensures |legs| < STEPS ==> Selectable(d.main.value) && Current(d.main.value) == NewStep
  {
    hide Inv;
    var m := d.main.value;
    forall i | 0 <= i < STEPS
      ensures !m.steps[i].status.PostIntent? && !m.steps[i].status.GetIntent?
    {
      if i < |legs| {
        assert LegDone(m.steps[i], legs[i]);
      }
    }
  }

  /** One write to the current step keeps the manifest ready, unless it is an open intent. */
  lemma StaysReady(m: Main, s: Step, n: Main)
    requires |m.steps| == STEPS && m.index < STEPS && !HasOpenIntent(m) && !s.status.PostIntent? && !s.status.GetIntent?
    requires n.steps == m.steps[m.index := s]
    ensures !HasOpenIntent(n)
  {
    forall i | 0 <= i < |n.steps|
      ensures !n.steps[i].status.PostIntent? && !n.steps[i].status.GetIntent?
    {
      assert i != m.index ==> n.steps[i] == m.steps[i];
      assert i < |m.steps| && !(m.steps[i].status.PostIntent? || m.steps[i].status.GetIntent?);
    }
  }

  lemma PreparedNext(d: Disk, legs: seq<Leg>, leg: Leg)
    requires Reached(d, legs) && |legs| < STEPS
    ensures var e := After(d, Uncut(DoPrepare(PrepareCourse(Some(leg.text), true, false))));
      && e.main.Some? && Ready(e, e.main.value) && e.postsMade == d.postsMade && e.getsMade == d.getsMade
      && var m := if d.main.None? then NewMain else d.main.value;
      && e.main.value == SetStep(m, NewStep.(status := Prepared, text := Some(leg.text)))
      && m.index == |legs|
  {
    var c := PrepareCourse(Some(leg.text), true, false);
    var b := if d.main.None? then Put(d, NewMain) else d;
    var m := b.main.value;
    if d.main.None? {
      FirstPrepare(d, c);
    } else {
      ReachedIsReady(d, legs);
    }
    PrepareDecides(b, m, c);
    PrepareIsShort(d, c);
    UncutEnds(d, DoPrepare(c));
    AfterKeepsInv(d, Uncut(DoPrepare(c)));
    hide Inv, PrepareStep, HasOpenIntent;
    StaysReady(m, NewStep.(status := Prepared, text := Some(leg.text)), SetStep(m, NewStep.(status := Prepared, text := Some(leg.text))));
  }

  lemma PrepareIsShort(d: Disk, c: PrepareCourse)
    ensures |PrepareStep(d, c).states| <= 100
  {
    hide Expected, HasOpenIntent;
  }

  lemma SendIsShort(d: Disk, c: SendCourse)
    ensures |SendStep(d, c).states| <= 100
  {
    hide Expected, HasOpenIntent;
  }

  lemma ReceiveIsShort(d: Disk, c: ReceiveCourse)
    ensures |ReceiveStep(d, c).states| <= 100
  {
    hide Expected, HasOpenIntent;
  }

  lemma WorkIsShort(d: Disk, c: WorkCourse)
    ensures |WorkStep(d, c).states| <= 100
  {
    hide Expected, HasOpenIntent;
  }

  lemma SentNext(d: Disk, m: Main, at: nat)
    requires Ready(d, m) && Selectable(m) && Current(m).status.Prepared? && at >= 1
    ensures var e := After(d, Uncut(DoSend(GoodSend(at)))); var s := Current(m).(status := Sent, at := Some(at));
      && e.postsMade == d.postsMade + 1 && e.getsMade == d.getsMade
      && e.main == Some(SetStep(m, s).(posts := m.posts + 1)) && Ready(e, e.main.value)
  {
    var c := GoodSend(at);
    SendDecides(d, m, c);
    SendIsShort(d, c);
    UncutEnds(d, DoSend(c));
    AfterKeepsInv(d, Uncut(DoSend(c)));
    hide Inv, SendStep, HasOpenIntent;
    var s := Current(m).(status := Sent, at := Some(at));
    StaysReady(m, s, SetStep(m, s).(posts := m.posts + 1));
  }

  lemma ReceivedNext(d: Disk, m: Main, leg: Leg)
    requires Ready(d, m) && Selectable(m) && Current(m).status.Sent? && leg.at >= 1 && Current(m).at == Some(leg.at)
    ensures var e := After(d, Uncut(DoReceive(GoodReceive(m.index, leg))));
      && e.getsMade == d.getsMade + 1 && e.postsMade == d.postsMade && Inv(e)
      && e.main == Some(SetStep(m, Current(m).(status := Acknowledged, inboundTask := Some(leg.task))).(index := m.index + 1, gets := m.gets + 1))
  {
    var c := GoodReceive(m.index, leg);
    ReceiveDecides(d, m, c);
    ReceiveIsShort(d, c);
    UncutEnds(d, DoReceive(c));
    AfterKeepsInv(d, Uncut(DoReceive(c)));
    hide Inv, ReceiveStep, HasOpenIntent;
  }

  lemma ReachedIndex(d: Disk, legs: seq<Leg>)
    requires Reached(d, legs)
    ensures d.main.Some? ==> |d.main.value.steps| == STEPS && d.main.value.index == |legs| && !d.main.value.complete
  {
  }

  /** One step of the relay, from planned to acknowledged. */
  lemma StepFinishes(d: Disk, legs: seq<Leg>, leg: Leg)
    requires Reached(d, legs) && |legs| < STEPS && leg.at >= 1
    ensures var a := StepRuns(|legs|, leg); Reached(After(After(After(d, a[0]), a[1]), a[2]), legs + [leg])
  {
    hide Inv, After, HasOpenIntent, Reached;
    ReachedIndex(d, legs);
    var a := StepRuns(|legs|, leg);
    PreparedNext(d, legs, leg);
    var d1 := After(d, a[0]);
    var m1 := d1.main.value;
    SentNext(d1, m1, leg.at);
    var d2 := After(d1, a[1]);
    var m2 := d2.main.value;
    ReceivedNext(d2, m2, leg);
    NextReached(d, legs, leg, After(d2, a[2]));
  }

  /** What the three operations of a step leave behind. */
  lemma NextReached(d: Disk, legs: seq<Leg>, leg: Leg, e: Disk)
    requires Reached(d, legs) && |legs| < STEPS && Inv(e)
    requires e.postsMade == d.postsMade + 1 && e.getsMade == d.getsMade + 1
    requires var m := if d.main.None? then NewMain else d.main.value;
      m.index == |legs| && e.main == Some(SetStep(SetStep(SetStep(m, NewStep.(status := Prepared, text := Some(leg.text))),
        NewStep.(status := Sent, text := Some(leg.text), at := Some(leg.at))).(posts := m.posts + 1),
        NewStep.(status := Acknowledged, text := Some(leg.text), at := Some(leg.at), inboundTask := Some(leg.task)))
        .(index := m.index + 1, gets := m.gets + 1))
    ensures Reached(e, legs + [leg])
  {
    hide Inv;
    var m, n := if d.main.None? then NewMain else d.main.value, e.main.value;
    assert forall i | 0 <= i < STEPS && i != |legs| :: n.steps[i] == m.steps[i];
    forall i | 0 <= i <= |legs|
      ensures LegDone(n.steps[i], (legs + [leg])[i])
    {
      if i < |legs| {
        assert LegDone(m.steps[i], legs[i]);
      }
    }
  }

  lemma {:induction false} AfterThree(runs: seq<Attempt>, a: seq<Attempt>)
    requires |a| == 3
    ensures AfterAll(runs + a) == After(After(After(AfterAll(runs), a[0]), a[1]), a[2])
  {
    hide AfterAll, After;
    AfterMore(runs, a[0]);
    AfterMore(runs + [a[0]], a[1]);
    AfterMore(runs + [a[0]] + [a[1]], a[2]);
    assert runs + [a[0]] + [a[1]] + [a[2]] == runs + a;
  }

  lemma {:induction false} RelayGrows(legs: seq<Leg>)
    requires legs != [] && forall i | 0 <= i < |legs| :: legs[i].at >= 1
    ensures RelayRuns(legs) == RelayRuns(legs[..|legs| - 1]) + StepRuns(|legs| - 1, legs[|legs| - 1])
  {
  }

  lemma {:induction false} StepsFinish(legs: seq<Leg>)
    requires |legs| <= STEPS && forall i | 0 <= i < |legs| :: legs[i].at >= 1
    ensures Reached(AfterAll(RelayRuns(legs)), legs)
    decreases |legs|
  {
    hide Reached, After, AfterAll, StepRuns, Uncut, RelayRuns;
    if legs == [] {
      NothingReached();
    } else {
      var front, leg := legs[..|legs| - 1], legs[|legs| - 1];
      StepsFinish(front);
      var runs, a := RelayRuns(front), StepRuns(|front|, leg);
      RelayGrows(legs);
      StepFinishes(AfterAll(runs), front, leg);
      AfterThree(runs, a);
      assert front + [leg] == legs;
    }
  }

  lemma NothingReached()
    ensures Reached(AfterAll(RelayRuns([])), [])
  {
  }

  /**
   For any eight texts, receipts and inbound tasks, the uninterrupted relay finishes every step as given, with one
   post and one get each, and the synthesis then completes it.
   */
  lemma {:induction false} RelayCompletes(legs: seq<Leg>, packet: Packet)
    requires |legs| == STEPS && forall i | 0 <= i < |legs| :: legs[i].at >= 1
    ensures var d := AfterAll(RelayRuns(legs) + [Synthesis(packet)]);
      && d.main.Some? && d.main.value.complete && d.main.value.halted.None? && d.main.value.index == STEPS
      && d.postsMade == d.getsMade == d.main.value.posts == d.main.value.gets == STEPS
      && |d.main.value.steps| == STEPS && forall i | 0 <= i < STEPS :: LegDone(d.main.value.steps[i], legs[i])
  {
    StepsFinish(legs);
    var d := AfterAll(RelayRuns(legs));
    AfterMore(RelayRuns(legs), Synthesis(packet));
    hide AfterAll, Inv;
    ReachedIsReady(d, legs);
    var c := WorkCourse(Alice, packet, true, false, true, true);
    WorkDecides(d, d.main.value, c);
    WorkIsShort(d, c);
    UncutEnds(d, DoWork(c));
    hide WorkStep;
    CompletedSynthesis(d, packet);
  }

  lemma CompletedSynthesis(d: Disk, packet: Packet)
    requires d.main.Some? && Ready(d, d.main.value) && d.main.value.index == STEPS && !d.main.value.complete && d.main.value.analyses == map[]
    ensures var n := Last(d, WorkStep(d, WorkCourse(Alice, packet, true, false, true, true)).states).main;
      n.Some? && n.value == d.main.value.(complete := true, analyses := map[Alice := Analysis(packet, false, true)])
  {
    ReadyOpens(d, d.main.value, false);
    hide Inv, HasOpenIntent, Expected;
  }
}
