/**
 The eight-step relay and its two repairs. Each operation is the sequence of files it writes and
 requests it makes; a crash keeps a prefix. Files: the main manifest, the transition file of the receipt
 recovery, and one record per reconciled send.
 */
module Rehearsal {
  import opened Wrappers

  type Text = string
  type Packet = string

  datatype Alias = Alice | Bob | Charlie | Dave | Eve

  datatype Status =
    | Planned | Prepared | PostIntent | Sent | SentReconciled | GetIntent | Received | Acknowledged | ReceivedReconciled

  datatype Halt =
    | UnexpectedStep | Interrupted | PayloadChanged | ApprovalSpent | ApprovedChanged | BudgetExhausted
    | SendFailed | AmbiguousSend | UnknownReceipt | SendStopped
    | StaleCursor | ReceiptFailed | EvidenceMismatch | CursorChanged | AnalysisChanged | AnalysisFailed

  /** Receipts hold the manifest they started from, as its hash does. */
  datatype SendReceipt = SendReceipt(step: nat, at: nat, original: Main)
  datatype ReadReceipt = ReadReceipt(inboundTask: string, original: Main)

  datatype Step = Step(
    status: Status, text: Option<Text>, at: Option<nat>, inboundTask: Option<string>, failed: bool,
    recovery: Option<ReadReceipt>, sendRecovery: Option<SendReceipt>)

  datatype Analysis = Analysis(packet: Packet, delegated: bool, evidence: bool)

  datatype Main = Main(
    index: nat, posts: nat, gets: nat, complete: bool, halted: Option<Halt>, steps: seq<Step>, analyses: map<Alias, Analysis>)

  datatype Phase = RecoveryIntent | ReceiptVerified | Applied
  datatype Transition = Transition(phase: Phase, receipt: ReadReceipt)

  datatype Observation = Ready | GetIntended | Observed(at: nat) | NotObserved | ObservationFailed
  datatype Apply = Apply(done: bool, receipt: SendReceipt, next: Main)
  datatype SendRecord = SendRecord(step: nat, original: Main, previousCursor: nat, attempts: nat, status: Observation, apply: Option<Apply>)

  /** The files, and every request that the relay itself ever made. */
  datatype Disk = Disk(
    main: Option<Main>, transition: Option<Transition>, sends: map<nat, SendRecord>, postsMade: nat, getsMade: nat)

  datatype Error =
    | Missing | Halted | WrongStep | NotExact | NotReady | Stopped | EvidenceRefused

  datatype Trace = Trace(states: seq<Disk>, result: Result<(), Error>)

  const STEPS: nat := 8
  const NewStep := Step(Planned, None, None, None, false, None, None)
  const LaterSteps := [NewStep, NewStep, NewStep, NewStep, NewStep, NewStep, NewStep]
  const NewMain := Main(0, 0, 0, false, None, [NewStep] + LaterSteps, map[])

  function Last(d: Disk, states: seq<Disk>): Disk {
    if states == [] then d else states[|states| - 1]
  }

  function Then(states: seq<Disk>, rest: Trace): Trace {
    Trace(states + rest.states, rest.result)
  }

  function Put(d: Disk, m: Main): Disk {
    d.(main := Some(m))
  }

  /** Who sends each step, and to whom. */
  function Sender(i: nat): Alias {
    if i % 2 == 0 then Alice else if i == 1 then Bob else if i == 3 then Charlie else if i == 5 then Dave else Eve
  }

  // --------------------------------------------------------------- opening the manifest

  predicate Workable(s: Status) {
    s.Planned? || s.Prepared? || s.PostIntent? || s.Sent? || s.SentReconciled? || s.GetIntent? || s.Received?
  }

  predicate ExpectedStep(m: Main, i: nat)
    requires i < |m.steps|
  {
    if i < m.index then m.steps[i].status.Acknowledged? || (i == 0 && m.steps[i].status.ReceivedReconciled? && m.steps[i].recovery.Some?)
    else if i > m.index then m.steps[i].status.Planned?
    else Workable(m.steps[i].status)
  }

  predicate Expected(m: Main) {
    forall i | 0 <= i < |m.steps| :: ExpectedStep(m, i)
  }

  predicate HasOpenIntent(m: Main) {
    exists i | 0 <= i < |m.steps| :: m.steps[i].status.PostIntent? || m.steps[i].status.GetIntent?
  }

  predicate ValidMain(m: Main) {
    |m.steps| == STEPS && m.index <= STEPS && m.posts <= STEPS && m.gets <= STEPS
  }

  function HaltNow(d: Disk, m: Main, reason: Halt): Trace {
    Trace([Put(d, m.(halted := Some(reason)))], Err(Stopped))
  }

  /** What every operation of the relay checks first; nothing goes on from a halted or interrupted manifest. */
  function Open(d: Disk, create: bool): Trace {
    var first := if d.main.None? && create then [Put(d, NewMain)] else [];
    var d1 := Last(d, first);
    if d1.main.None? || !ValidMain(d1.main.value) then Trace(first, Err(Missing))
    else
      var m := d1.main.value;
      if !Expected(m) then Then(first, HaltNow(d1, m, UnexpectedStep))
      else if m.halted.Some? then Trace(first, Err(Halted))
      else if HasOpenIntent(m) then Then(first, HaltNow(d1, m, Interrupted))
      else Trace(first, Ok(()))
  }

  predicate Selectable(m: Main) {
    m.index < STEPS && !m.complete
  }

  function Current(m: Main): Step
    requires m.index < |m.steps|
  {
    m.steps[m.index]
  }

  function SetStep(m: Main, s: Step): Main
    requires m.index < |m.steps|
  {
    m.(steps := m.steps[m.index := s])
  }

  // ------------------------------------------------------------------ prepare and send

  /** The message built from the manifest, and how storing its task and approval turns out. */
  datatype PrepareCourse = PrepareCourse(text: Option<Text>, stored: bool, spent: bool)

  function PrepareStep(d: Disk, c: PrepareCourse): Trace {
    var opening := Open(d, true);
    if opening.result.Err? then opening
    else Then(opening.states, PrepareOpened(Last(d, opening.states), c))
  }

  function PrepareOpened(d: Disk, c: PrepareCourse): Trace {
    if d.main.None? || |d.main.value.steps| != STEPS || !Selectable(d.main.value) then Trace([], Err(WrongStep))
    else
      var m := d.main.value;
      var step := Current(m);
      if !step.status.Planned? && !step.status.Prepared? then Trace([], Err(WrongStep))
      else if c.text.None? then Trace([], Err(NotReady))
      else if step.text.Some? && step.text != c.text then HaltNow(d, m, PayloadChanged)
      else if !c.stored then Trace([], Err(NotReady))
      else if c.spent then HaltNow(d, m, ApprovalSpent)
      else Trace([Put(d, SetStep(m, step.(status := Prepared, text := c.text)))], Ok(()))
  }

  datatype SendOutcome = Succeeded(at: nat) | Refused | Ambiguous | Threw

  /** What the operator, the stores and the network make of a send. */
  datatype SendCourse = SendCourse(
    exact: bool, approved: bool, intact: bool, started: bool, alone: bool, intentSaved: bool, posted: bool, outcome: SendOutcome,
    resultSaved: bool)

  function SendStep(d: Disk, c: SendCourse): Trace {
    var opening := Open(d, false);
    if opening.result.Err? then opening
    else Then(opening.states, SendOpened(Last(d, opening.states), c))
  }

  function SendOpened(d: Disk, c: SendCourse): Trace {
    if d.main.None? || |d.main.value.steps| != STEPS || !Selectable(d.main.value) then Trace([], Err(WrongStep))
    else
      var m := d.main.value;
      if !Current(m).status.Prepared? || !c.exact then Trace([], Err(NotExact))
      else if !c.approved then Trace([], Err(NotReady))
      else if !c.intact then HaltNow(d, m, ApprovedChanged)
      else if m.posts >= STEPS then HaltNow(d, m, BudgetExhausted)
      else if !c.started then Trace([], Err(NotReady))
      else if !c.alone then HaltNow(d, m, SendStopped)
      else
        var n := SetStep(m, Current(m).(status := PostIntent)).(posts := m.posts + 1);
        var d1 := Put(d, n);
        if !c.intentSaved then HaltNow(d, n, SendStopped)
        else
          var d2 := if c.posted then d1.(postsMade := d1.postsMade + 1) else d1;
          Then(if c.posted then [d1, d2] else [d1], SettleSend(d2, n, c))
  }

  function SettleSend(d: Disk, m: Main, c: SendCourse): Trace
    requires m.index < |m.steps|
  {
    match c.outcome
    case Refused => HaltNow(d, SetStep(m, Current(m).(failed := true)), SendFailed)
    case Ambiguous => HaltNow(d, SetStep(m, Current(m).(failed := true)), AmbiguousSend)
    case Threw => HaltNow(d, m, SendStopped)
    case Succeeded(at) =>
      var sent := SetStep(m, Current(m).(status := Sent, at := Some(at)));
      if at < 1 then HaltNow(d, m, UnknownReceipt)
      else if !c.resultSaved then HaltNow(d, sent, SendStopped)
      else Trace([Put(d, sent)], Ok(()))
  }

  // --------------------------------------------------------------------------- receive

  datatype ReceiveCourse = ReceiveCourse(
    step: nat, cursor: nat, ready: bool,
    intentSaved: bool,
    got: bool,                // the GET left for the network
    persisted: Option<string>,// the validated message's inbound task, once it is durable
    receiptSaved: bool,
    completed: bool,          // its local task ran
    evidence: bool, cursorFits: bool, acknowledged: bool, endSaved: bool)

  function ReceiveStep(d: Disk, c: ReceiveCourse): Trace {
    var opening := Open(d, false);
    if opening.result.Err? then opening
    else Then(opening.states, ReceiveOpened(Last(d, opening.states), c))
  }

  function ReceiveOpened(d: Disk, c: ReceiveCourse): Trace {
    if d.main.None? || |d.main.value.steps| != STEPS || !Selectable(d.main.value) then Trace([], Err(WrongStep))
    else
      var m := d.main.value;
      var step := Current(m);
      if c.step != m.index + 1 || !(step.status.Sent? || step.status.SentReconciled? || step.status.Received?) then Trace([], Err(WrongStep))
      else if step.status.Received? then CompleteReceipt(d, m, c)
      else if step.at != Some(c.cursor + 1) then HaltNow(d, SetStep(m, step.(failed := true)), StaleCursor)
      else if m.gets >= STEPS then HaltNow(d, m, BudgetExhausted)
      else if !c.ready then HaltNow(d, SetStep(m, step.(failed := true)), ReceiptFailed)
      else ReadOnce(d, SetStep(m, step.(status := GetIntent)).(gets := m.gets + 1), c)
  }

  /** The manifest with step `i` marked as failed. */
  function FailedAt(m: Main, i: nat): Main
    requires i < |m.steps|
  {
    m.(steps := m.steps[i := m.steps[i].(failed := true)])
  }

  /** Durable intent, one GET, the durable receipt, then completion; `m` already holds the intent. */
  function ReadOnce(d: Disk, m: Main, c: ReceiveCourse): Trace
    requires m.index < |m.steps|
  {
    if !c.intentSaved then HaltNow(d, FailedAt(m, m.index), ReceiptFailed)
    else
      var d1 := Put(d, m);
      var d2 := if c.got then d1.(getsMade := d1.getsMade + 1) else d1;
      Then(if c.got then [d1, d2] else [d1], AfterRead(d2, m, c))
  }

  function AfterRead(d: Disk, m: Main, c: ReceiveCourse): Trace
    requires m.index < |m.steps|
  {
    if !c.got || c.persisted.None? then HaltNow(d, FailedAt(m, m.index), ReceiptFailed)
    else
      var n := SetStep(m, Current(m).(status := Received, inboundTask := c.persisted));
      if !c.receiptSaved then HaltNow(d, FailedAt(n, n.index), ReceiptFailed)
      else Then([Put(d, n)], AfterReceipt(Put(d, n), n, c))
  }

  /** Completion within the same call; whatever fails, the manifest in memory is written with the failure. */
  function AfterReceipt(d: Disk, m: Main, c: ReceiveCourse): Trace
    requires m.index < |m.steps|
  {
    if !c.completed then HaltNow(d, FailedAt(m, m.index), ReceiptFailed)
    else
      var finish := CompleteReceipt(d, m, c);
      if finish.result.Ok? then finish
      else Then(finish.states, HaltNow(Last(d, finish.states), FailedAt(LeftInMemory(m, c), m.index), ReceiptFailed))
  }

  function Acknowledge(m: Main): Main
    requires m.index < |m.steps|
  {
    SetStep(m, Current(m).(status := Acknowledged)).(index := m.index + 1)
  }

  predicate ReachesEnd(c: ReceiveCourse) {
    c.evidence && c.cursorFits && c.acknowledged
  }

  /** When only the last save failed, the step is already acknowledged in memory. */
  function LeftInMemory(m: Main, c: ReceiveCourse): (n: Main)
    requires m.index < |m.steps|
    ensures |n.steps| == |m.steps|
  {
    if ReachesEnd(c) then Acknowledge(m) else m
  }

  function CompleteReceipt(d: Disk, m: Main, c: ReceiveCourse): Trace
    requires m.index < |m.steps|
  {
    if !c.evidence then HaltNow(d, m, EvidenceMismatch)
    else if !c.cursorFits then HaltNow(d, m, CursorChanged)
    else if !c.acknowledged || !c.endSaved then Trace([], Err(Stopped))
    else Trace([Put(d, Acknowledge(m))], Ok(()))
  }

  // ------------------------------------------------------------------------------ work

  /** How far the local analysis of a worker, or the final synthesis, gets. */
  datatype WorkCourse = WorkCourse(alias: Alias, packet: Packet, valid: bool, delegated: bool, succeeded: bool, endSaved: bool)

  function WorkStep(d: Disk, c: WorkCourse): Trace {
    var opening := Open(d, false);
    if opening.result.Err? then opening
    else Then(opening.states, WorkOpened(Last(d, opening.states), c))
  }

  predicate IsWorkOf(m: Main, alias: Alias) {
    if m.index == STEPS then alias.Alice? else m.index % 2 == 1 && Sender(m.index) == alias
  }

  function WorkOpened(d: Disk, c: WorkCourse): Trace {
    if d.main.None? || !IsWorkOf(d.main.value, c.alias) then Trace([], Err(WrongStep))
    else if d.main.value.complete then Trace([], Ok(()))
    else if !c.valid then Trace([], Err(NotReady))
    else
      var m := d.main.value;
      var prior := if c.alias in m.analyses then Some(m.analyses[c.alias]) else None;
      if prior.Some? && prior.value.packet != c.packet then HaltNow(d, m, AnalysisChanged)
      else if prior.Some? && prior.value.evidence then Trace([], Ok(()))
      else
        var begun := if prior.Some? then prior.value else Analysis(c.packet, false, false);
        var m1 := m.(analyses := m.analyses[c.alias := begun]);
        var d1 := Put(d, m1);
        var m2 := if c.delegated && m.index != STEPS then m1.(analyses := m1.analyses[c.alias := begun.(delegated := true)]) else m1;
        var d2 := Put(d1, m2);
        if !c.succeeded then Then([d1, d2], HaltNow(d2, m2, AnalysisFailed))
        else
          var done := m2.analyses[c.alias].(evidence := true);
          var m3 := m2.(analyses := m2.analyses[c.alias := done], complete := m2.complete || m.index == STEPS);
          if !c.endSaved then Then([d1, d2], HaltNow(d2, m3, AnalysisFailed))
          else Trace([d1, d2, Put(d2, m3)], Ok(()))
  }

  // -------------------------------------------------------------------- receipt recovery

  /** A completed read-only reconciliation: the manifest it was made for and the durable inbound task. */
  datatype Evidence = Evidence(original: Main, inboundTask: string)

  predicate RecoverableRead(m: Main) {
    && |m.steps| == STEPS && m.index == 0 && !m.complete && m.posts == 1 && m.gets == 1
    && m.halted == Some(ReceiptFailed)
    && m.steps[0].status.GetIntent? && m.steps[0].at == Some(1) && m.steps[0].inboundTask.None? && m.steps[0].recovery.None?
    && m.steps[0].text.Some?
    && (forall i | 1 <= i < STEPS :: m.steps[i] == NewStep) && m.analyses == map[]
  }

  /** The manifest before the recovery, rebuilt from one where it was applied and later work was done. */
  function Reconstructed(m: Main): Main
    requires |m.steps| == STEPS
  {
    var step := m.steps[0].(status := GetIntent, recovery := None, inboundTask := None);
    Main(0, 1, 1, false, Some(ReceiptFailed), [step] + LaterSteps, map[])
  }

  function AppliedRead(m: Main, receipt: ReadReceipt): Main
    requires |m.steps| == STEPS
  {
    var step := m.steps[0].(status := ReceivedReconciled, inboundTask := Some(receipt.inboundTask), recovery := Some(receipt));
    m.(steps := m.steps[0 := step], index := 1, halted := None)
  }

  /** Two phases in the transition file around one replacement of the manifest. */
  function RecoverRead(d: Disk, evidence: Option<Evidence>): Trace {
    if d.main.None? || !ValidMain(d.main.value) then Trace([], Err(Missing))
    else
      var m := d.main.value;
      var already := m.steps[0].status.ReceivedReconciled?;
      if already && !(d.transition.Some? && m.index >= 1 && m.steps[0].recovery == Some(d.transition.value.receipt)) then
        Trace([], Err(EvidenceRefused))
      else
        var original := if already then Reconstructed(m) else m;
        if evidence.None? || evidence.value.original != original || !RecoverableRead(original) then Trace([], Err(EvidenceRefused))
        else
          var receipt := ReadReceipt(evidence.value.inboundTask, original);
          if d.transition.Some? && d.transition.value.receipt != receipt then Trace([], Err(EvidenceRefused))
          else RecoverVerified(d, m, already, receipt)
  }

  function RecoverVerified(d: Disk, m: Main, already: bool, receipt: ReadReceipt): Trace
    requires |m.steps| == STEPS && |receipt.original.steps| == STEPS
  {
    var next := AppliedRead(receipt.original, receipt);
    var phase := if d.transition.Some? then Some(d.transition.value.phase) else None;
    if already then
      if phase != Some(ReceiptVerified) && phase != Some(Applied) then Trace([], Err(EvidenceRefused))
      else if m.steps[0] != next.steps[0] || (phase != Some(Applied) && m != next) then Trace([], Err(EvidenceRefused))
      else if phase == Some(Applied) then Trace([], Ok(()))
      else Trace([d.(transition := Some(Transition(Applied, receipt)))], Ok(()))
    else if phase == Some(Applied) then Trace([], Err(EvidenceRefused))
    else
      var d3 := Put(d.(transition := Some(Transition(ReceiptVerified, receipt))), next);
      Trace(VerifiedStates(d, phase, receipt) + [d3, d3.(transition := Some(Transition(Applied, receipt)))], Ok(()))
  }

  /** The transition's own writes before the manifest is replaced. */
  function VerifiedStates(d: Disk, phase: Option<Phase>, receipt: ReadReceipt): seq<Disk> {
    var d1 := d.(transition := Some(Transition(RecoveryIntent, receipt)));
    var d2 := d.(transition := Some(Transition(ReceiptVerified, receipt)));
    if phase.None? then [d1, d2] else if phase == Some(RecoveryIntent) then [d2] else []
  }

  // ------------------------------------------------------------------- send reconciliation

  predicate RecoverableSend(m: Main, n: nat) {
    && |m.steps| == STEPS && 1 <= n <= STEPS && n == m.index + 1 && !m.complete
    && m.steps[n - 1].status.PostIntent? && m.steps[n - 1].at.None? && m.steps[n - 1].sendRecovery.None?
    && (m.halted == Some(SendFailed) || m.halted == Some(AmbiguousSend))
    && m.posts == n && m.gets == n - 1 && forall i | n <= i < STEPS :: m.steps[i].status.Planned?
  }

  /** `fits` stands for the sender's task, the spent approval and the bindings. */
  function PrepareReconciliation(d: Disk, n: nat, cursor: nat, fits: bool): Trace {
    if d.main.None? || !RecoverableSend(d.main.value, n) || !fits then Trace([], Err(EvidenceRefused))
    else if n in d.sends then
      if d.sends[n].original == d.main.value && d.sends[n].previousCursor == cursor then Trace([], Ok(())) else Trace([], Err(EvidenceRefused))
    else Trace([d.(sends := d.sends[n := SendRecord(n, d.main.value, cursor, 0, Ready, None)])], Ok(()))
  }

  /** `authorized`: the read's own approval was consumed. The outcome is what the one bounded read showed. */
  function Observe(d: Disk, n: nat, fits: bool, authorized: bool, outcome: Observation): Trace {
    if d.main.None? || n !in d.sends || !fits || !authorized then Trace([], Err(EvidenceRefused))
    else
      var r := d.sends[n];
      if !r.status.Ready? || r.attempts != 0 || r.original != d.main.value || !RecoverableSend(d.main.value, n) then
        Trace([], Err(EvidenceRefused))
      else
        var r1 := r.(attempts := 1, status := GetIntended);
        var settled := if outcome.Observed? || outcome.NotObserved? then outcome else ObservationFailed;
        Trace([d.(sends := d.sends[n := r1]), d.(sends := d.sends[n := r1.(status := settled)])], Ok(()))
  }

  function AppliedSend(m: Main, receipt: SendReceipt): Main
    requires 1 <= receipt.step <= |m.steps|
  {
    var i := receipt.step - 1;
    m.(steps := m.steps[i := m.steps[i].(status := SentReconciled, at := Some(receipt.at), sendRecovery := Some(receipt))], halted := None)
  }

  /** `authority`: the read's approval is executing or confirmed and its observation had no gap. */
  function ApplySend(d: Disk, n: nat, fits: bool, authority: bool): Trace {
    if d.main.None? || |d.main.value.steps| != STEPS || n !in d.sends || !authority then Trace([], Err(EvidenceRefused))
    else
      var m, r := d.main.value, d.sends[n];
      if !r.status.Observed? || r.attempts != 1 || r.status.at != r.previousCursor + 1 || r.step != n || !(1 <= n <= STEPS)
         || |r.original.steps| != STEPS
      then Trace([], Err(EvidenceRefused))
      else
        var receipt := SendReceipt(n, r.status.at, r.original);
        if r.apply.Some? && r.apply.value.receipt != receipt then Trace([], Err(EvidenceRefused))
        else if m.steps[n - 1].sendRecovery.Some? then ApplyAgain(d, m, r, receipt)
        else ApplyFirst(d, m, r, receipt, fits)
  }

  function ApplyAgain(d: Disk, m: Main, r: SendRecord, receipt: SendReceipt): Trace
    requires 1 <= receipt.step <= |m.steps|
  {
    var step := m.steps[receipt.step - 1];
    if r.apply.None? || step.sendRecovery != Some(receipt) || step.at != Some(receipt.at) then Trace([], Err(EvidenceRefused))
    else if r.apply.value.done then Trace([], Ok(()))
    else if m != r.apply.value.next then Trace([], Err(EvidenceRefused))
    else Trace([d.(sends := d.sends[receipt.step := r.(apply := Some(r.apply.value.(done := true)))])], Ok(()))
  }

  function ApplyFirst(d: Disk, m: Main, r: SendRecord, receipt: SendReceipt, fits: bool): Trace
    requires 1 <= receipt.step <= |m.steps|
  {
    if (r.apply.Some? && r.apply.value.done) || !fits || r.original != m || !RecoverableSend(m, receipt.step) then
      Trace([], Err(EvidenceRefused))
    else
      var next := AppliedSend(m, receipt);
      if r.apply.Some? && r.apply.value.next != next then Trace([], Err(EvidenceRefused))
      else
        var intent := r.(apply := Some(Apply(false, receipt, next)));
        var d1 := d.(sends := d.sends[receipt.step := intent]);
        var d2 := Put(d1, next);
        var d3 := d2.(sends := d2.sends[receipt.step := intent.(apply := Some(Apply(true, receipt, next)))]);
        Trace((if r.apply.Some? then [] else [d1]) + [d2, d3], Ok(()))
  }

  // ------------------------------------------------------------ runs, cut off anywhere

  datatype Operation =
    | DoPrepare(prepare: PrepareCourse)
    | DoSend(send: SendCourse)
    | DoReceive(receive: ReceiveCourse)
    | DoWork(work: WorkCourse)
    | DoRecoverRead(evidence: Option<Evidence>)
    | DoPrepareReconciliation(n: nat, cursor: nat, fits: bool)
    | DoObserve(n: nat, fits: bool, authorized: bool, outcome: Observation)
    | DoApplySend(n: nat, fits: bool, authority: bool)

  function TraceOf(d: Disk, op: Operation): Trace {
    match op
    case DoPrepare(c) => PrepareStep(d, c)
    case DoSend(c) => SendStep(d, c)
    case DoReceive(c) => ReceiveStep(d, c)
    case DoWork(c) => WorkStep(d, c)
    case DoRecoverRead(evidence) => RecoverRead(d, evidence)
    case DoPrepareReconciliation(n, cursor, fits) => PrepareReconciliation(d, n, cursor, fits)
    case DoObserve(n, fits, authorized, outcome) => Observe(d, n, fits, authorized, outcome)
    case DoApplySend(n, fits, authority) => ApplySend(d, n, fits, authority)
  }

  datatype Attempt = Attempt(operation: Operation, cut: nat)

  function After(d: Disk, a: Attempt): Disk {
    var states := TraceOf(d, a.operation).states;
    Last(d, if a.cut <= |states| then states[..a.cut] else states)
  }

  function AfterAll(runs: seq<Attempt>): Disk {
    if runs == [] then Disk(None, None, map[], 0, 0) else After(AfterAll(runs[..|runs| - 1]), runs[|runs| - 1])
  }

  // -------------------------------------------------------------- matching a sent message

  datatype Message = Message(at: nat, text: Text, from: Alias, nonce: Option<int>, frameFits: bool)
  datatype View = View(otherRoom: bool, first: Option<nat>, last: nat, messages: seq<Message>)

  /** Strictly after the message before it, and inside the window. */
  predicate PlaceFits(v: View, i: nat)
    requires i < |v.messages|
  {
    && (if i == 0 then 0 else v.messages[i - 1].at) < v.messages[i].at <= v.last
    && v.first.Some? && v.first.value <= v.messages[i].at
  }

  predicate WindowFits(v: View, cursor: nat) {
    !v.otherRoom && |v.messages| <= 200 && cursor <= v.last && forall i | 0 <= i < |v.messages| :: PlaceFits(v, i)
  }

  predicate IsMatch(m: Message, text: Text) {
    m.text == text
  }

  predicate MatchFits(m: Message, sender: Alias) {
    m.from == sender && m.nonce.Some? && m.nonce.value >= 0 && m.frameFits
  }

  /** At most one message of the window carries the text, and it must be the sender's own in every part. */
  method MatchSentMessage(v: View, text: Text, sender: Alias, cursor: nat) returns (r: Result<Option<nat>, Error>)
    ensures r.Ok? <==>
      && WindowFits(v, cursor)
      && (forall i, j | 0 <= i < |v.messages| && 0 <= j < |v.messages| && IsMatch(v.messages[i], text) && IsMatch(v.messages[j], text) :: i == j)
      && (forall i | 0 <= i < |v.messages| && IsMatch(v.messages[i], text) :: MatchFits(v.messages[i], sender))
    ensures r.Ok? && r.value.Some? ==> exists i :: 0 <= i < |v.messages| && IsMatch(v.messages[i], text) && r.value.value == v.messages[i].at
    ensures r.Ok? && r.value.None? ==> forall i | 0 <= i < |v.messages| :: !IsMatch(v.messages[i], text)
  {
    if v.otherRoom || |v.messages| > 200 || v.last < cursor {
      return Err(EvidenceRefused);
    }
    var previous := 0;
    var found: Option<nat> := None;
    var conflict := false;
    for k := 0 to |v.messages|
      invariant previous == if k == 0 then 0 else v.messages[k - 1].at
      invariant forall i | 0 <= i < k :: PlaceFits(v, i)
      invariant found.Some? ==> found.value < k && IsMatch(v.messages[found.value], text)
      invariant found.None? ==> forall i | 0 <= i < k :: !IsMatch(v.messages[i], text)
      invariant !conflict ==> forall i | 0 <= i < k && IsMatch(v.messages[i], text) :: found == Some(i)
      invariant conflict ==> exists i, j :: 0 <= i < j < k && IsMatch(v.messages[i], text) && IsMatch(v.messages[j], text)
    {
      var m := v.messages[k];
      if m.at <= previous || m.at > v.last || v.first.None? || m.at < v.first.value {
        assert !PlaceFits(v, k);
        return Err(EvidenceRefused);
      }
      previous := m.at;
      if IsMatch(m, text) {
        conflict := conflict || found.Some?;
        found := Some(k);
      }
    }
    if conflict {
      return Err(EvidenceRefused);
    }
    if found.None? {
      return Ok(None);
    }
    if !MatchFits(v.messages[found.value], sender) {
      return Err(EvidenceRefused);
    }
    r := Ok(Some(v.messages[found.value].at));
  }

  // ------------------------------------------------------------------------ the relay

  /** The files of one rehearsal, rewritten one at a time; `history` records every state they were in. */
  class Relay {
    var main: Option<Main>
    var transition: Option<Transition>
    var sends: map<nat, SendRecord>
    var postsMade: nat
    var getsMade: nat
    ghost var history: seq<Disk>

    constructor (d: Disk)
      ensures Snapshot() == d && history == []
    {
      main, transition, sends, postsMade, getsMade, history := d.main, d.transition, d.sends, d.postsMade, d.getsMade, [];
    }

    ghost function Snapshot(): Disk
      reads this
    {
      Disk(main, transition, sends, postsMade, getsMade)
    }

    ghost predicate Went(before: Disk, past: seq<Disk>, states: seq<Disk>)
      reads this
    {
      history == past + states && Snapshot() == Last(before, states)
    }

    method Save(m: Main)
      modifies this
      ensures Went(old(Snapshot()), old(history), [Put(old(Snapshot()), m)])
    {
      main := Some(m);
      history := history + [Snapshot()];
    }

    method SaveTransition(t: Transition)
      modifies this
      ensures Went(old(Snapshot()), old(history), [old(Snapshot()).(transition := Some(t))])
    {
      transition := Some(t);
      history := history + [Snapshot()];
    }

    method SaveSend(n: nat, r: SendRecord)
      modifies this
      ensures Went(old(Snapshot()), old(history), [old(Snapshot()).(sends := old(sends)[n := r])])
    {
      sends := sends[n := r];
      history := history + [Snapshot()];
    }

    method HaltRelay(m: Main, reason: Halt) returns (r: Result<(), Error>)
      modifies this
      ensures var t := HaltNow(old(Snapshot()), m, reason); Went(old(Snapshot()), old(history), t.states) && r == t.result
    {
      Save(m.(halted := Some(reason)));
      r := Err(Stopped);
    }

    method OpenManifest(create: bool) returns (r: Result<(), Error>)
      modifies this
      ensures var t := Open(old(Snapshot()), create); Went(old(Snapshot()), old(history), t.states) && r == t.result
    {
      hide Expected, HasOpenIntent;
      if main.None? && create {
        Save(NewMain);
      }
      if main.None? || !ValidMain(main.value) {
        return Err(Missing);
      }
      if !Expected(main.value) {
        r := HaltRelay(main.value, UnexpectedStep);
        return;
      }
      if main.value.halted.Some? {
        return Err(Halted);
      }
      if HasOpenIntent(main.value) {
        r := HaltRelay(main.value, Interrupted);
        return;
      }
      r := Ok(());
    }

    // ------------------------------------------------------------------- sending

    method PrepareNext(c: PrepareCourse) returns (r: Result<(), Error>)
      modifies this
      ensures var t := PrepareStep(old(Snapshot()), c); Went(old(Snapshot()), old(history), t.states) && r == t.result
    {
      hide Open, PrepareOpened;
      r := OpenManifest(true);
      if r.Ok? {
        r := PrepareCurrent(c);
      }
    }

    method PrepareCurrent(c: PrepareCourse) returns (r: Result<(), Error>)
      modifies this
      ensures var t := PrepareOpened(old(Snapshot()), c); Went(old(Snapshot()), old(history), t.states) && r == t.result
    {
      if main.None? || |main.value.steps| != STEPS || !Selectable(main.value) {
        return Err(WrongStep);
      }
      var m := main.value;
      var step := Current(m);
      if !step.status.Planned? && !step.status.Prepared? {
        return Err(WrongStep);
      }
      if c.text.None? {
        return Err(NotReady);
      }
      if step.text.Some? && step.text != c.text {
        r := HaltRelay(m, PayloadChanged);
      } else if !c.stored {
        r := Err(NotReady);
      } else if c.spent {
        r := HaltRelay(m, ApprovalSpent);
      } else {
        Save(SetStep(m, step.(status := Prepared, text := c.text)));
        r := Ok(());
      }
    }

    method SendNext(c: SendCourse) returns (r: Result<(), Error>)
      modifies this
      ensures var t := SendStep(old(Snapshot()), c); Went(old(Snapshot()), old(history), t.states) && r == t.result
    {
      hide Open, SendOpened;
      r := OpenManifest(false);
      if r.Ok? {
        r := SendCurrent(c);
      }
    }

    method SendCurrent(c: SendCourse) returns (r: Result<(), Error>)
      modifies this
      ensures var t := SendOpened(old(Snapshot()), c); Went(old(Snapshot()), old(history), t.states) && r == t.result
    {
      hide SettleSend;
      if main.None? || |main.value.steps| != STEPS || !Selectable(main.value) {
        return Err(WrongStep);
      }
      var m := main.value;
      if !Current(m).status.Prepared? || !c.exact {
        return Err(NotExact);
      }
      if !c.approved {
        return Err(NotReady);
      }
      if !c.intact {
        r := HaltRelay(m, ApprovedChanged);
        return;
      }
      if m.posts >= STEPS {
        r := HaltRelay(m, BudgetExhausted);
        return;
      }
      if !c.started {
        return Err(NotReady);
      }
      if !c.alone {
        r := HaltRelay(m, SendStopped);
        return;
      }
      m := SetStep(m, Current(m).(status := PostIntent)).(posts := m.posts + 1);
      if !c.intentSaved {
        r := HaltRelay(m, SendStopped);
        return;
      }
      Save(m);
      if c.posted {
        postsMade := postsMade + 1;
        history := history + [Snapshot()];
      }
      r := SettleCurrent(m, c);
    }

    method SettleCurrent(m: Main, c: SendCourse) returns (r: Result<(), Error>)
      requires m.index < |m.steps|
      modifies this
      ensures var t := SettleSend(old(Snapshot()), m, c); Went(old(Snapshot()), old(history), t.states) && r == t.result
    {
      match c.outcome
      case Refused => r := HaltRelay(SetStep(m, Current(m).(failed := true)), SendFailed);
      case Ambiguous => r := HaltRelay(SetStep(m, Current(m).(failed := true)), AmbiguousSend);
      case Threw => r := HaltRelay(m, SendStopped);
      case Succeeded(at) =>
        if at < 1 {
          r := HaltRelay(m, UnknownReceipt);
          return;
        }
        var sent := SetStep(m, Current(m).(status := Sent, at := Some(at)));
        if !c.resultSaved {
          r := HaltRelay(sent, SendStopped);
        } else {
          Save(sent);
          r := Ok(());
        }
    }

    // ----------------------------------------------------------------- receiving

    method ReceiveNext(c: ReceiveCourse) returns (r: Result<(), Error>)
      modifies this
      ensures var t := ReceiveStep(old(Snapshot()), c); Went(old(Snapshot()), old(history), t.states) && r == t.result
    {
      hide Open, ReceiveOpened;
      r := OpenManifest(false);
      if r.Ok? {
        r := ReceiveCurrent(c);
      }
    }

    method ReceiveCurrent(c: ReceiveCourse) returns (r: Result<(), Error>)
      modifies this
      ensures var t := ReceiveOpened(old(Snapshot()), c); Went(old(Snapshot()), old(history), t.states) && r == t.result
    {
      hide CompleteReceipt, ReadOnce;
      if main.None? || |main.value.steps| != STEPS || !Selectable(main.value) {
        return Err(WrongStep);
      }
      var m := main.value;
      var step := Current(m);
      if c.step != m.index + 1 || !(step.status.Sent? || step.status.SentReconciled? || step.status.Received?) {
        return Err(WrongStep);
      }
      if step.status.Received? {
        var left;
        r, left := FinishReceipt(m, c);
      } else if step.at != Some(c.cursor + 1) {
        r := HaltRelay(SetStep(m, step.(failed := true)), StaleCursor);
      } else if m.gets >= STEPS {
        r := HaltRelay(m, BudgetExhausted);
      } else if !c.ready {
        r := HaltRelay(SetStep(m, step.(failed := true)), ReceiptFailed);
      } else {
        r := ReadCurrent(SetStep(m, step.(status := GetIntent)).(gets := m.gets + 1), c);
      }
    }

    method ReadCurrent(m: Main, c: ReceiveCourse) returns (r: Result<(), Error>)
      requires m.index < |m.steps|
      modifies this
      ensures var t := ReadOnce(old(Snapshot()), m, c); Went(old(Snapshot()), old(history), t.states) && r == t.result
    {
      hide AfterRead;
      if !c.intentSaved {
        r := HaltRelay(FailedAt(m, m.index), ReceiptFailed);
        return;
      }
      Save(m);
      if c.got {
        getsMade := getsMade + 1;
        history := history + [Snapshot()];
      }
      r := StoreReceipt(m, c);
    }

    method StoreReceipt(m: Main, c: ReceiveCourse) returns (r: Result<(), Error>)
      requires m.index < |m.steps|
      modifies this
      ensures var t := AfterRead(old(Snapshot()), m, c); Went(old(Snapshot()), old(history), t.states) && r == t.result
    {
      hide AfterReceipt;
      if !c.got || c.persisted.None? {
        r := HaltRelay(FailedAt(m, m.index), ReceiptFailed);
        return;
      }
      var n := SetStep(m, Current(m).(status := Received, inboundTask := c.persisted));
      if !c.receiptSaved {
        r := HaltRelay(FailedAt(n, n.index), ReceiptFailed);
        return;
      }
      Save(n);
      r := CompleteNow(n, c);
    }

    method CompleteNow(m: Main, c: ReceiveCourse) returns (r: Result<(), Error>)
      requires m.index < |m.steps|
      modifies this
      ensures var t := AfterReceipt(old(Snapshot()), m, c); Went(old(Snapshot()), old(history), t.states) && r == t.result
    {
      hide CompleteReceipt;
      if !c.completed {
        r := HaltRelay(FailedAt(m, m.index), ReceiptFailed);
        return;
      }
      var left;
      r, left := FinishReceipt(m, c);
      if r.Err? {
        r := HaltRelay(FailedAt(left, m.index), ReceiptFailed);
      }
    }

    /** Also returns the manifest it leaves in memory. */
    method FinishReceipt(m: Main, c: ReceiveCourse) returns (r: Result<(), Error>, left: Main)
      requires m.index < |m.steps|
      modifies this
      ensures var t := CompleteReceipt(old(Snapshot()), m, c); Went(old(Snapshot()), old(history), t.states) && r == t.result
      ensures left == LeftInMemory(m, c)
    {
      left := m;
      if !c.evidence {
        r := HaltRelay(m, EvidenceMismatch);
      } else if !c.cursorFits {
        r := HaltRelay(m, CursorChanged);
      } else if !c.acknowledged {
        r := Err(Stopped);
      } else {
        left := Acknowledge(m);
        if !c.endSaved {
          r := Err(Stopped);
        } else {
          Save(left);
          r := Ok(());
        }
      }
    }

    // ----------------------------------------------------------------------- work

    method WorkNext(c: WorkCourse) returns (r: Result<(), Error>)
      modifies this
      ensures var t := WorkStep(old(Snapshot()), c); Went(old(Snapshot()), old(history), t.states) && r == t.result
    {
      hide Open, WorkOpened;
      r := OpenManifest(false);
      if r.Ok? {
        r := WorkCurrent(c);
      }
    }

    method WorkCurrent(c: WorkCourse) returns (r: Result<(), Error>)
      modifies this
      ensures var t := WorkOpened(old(Snapshot()), c); Went(old(Snapshot()), old(history), t.states) && r == t.result
    {
      if main.None? || !IsWorkOf(main.value, c.alias) {
        return Err(WrongStep);
      }
      var m := main.value;
      if m.complete {
        return Ok(());
      }
      if !c.valid {
        return Err(NotReady);
      }
      var begun := if c.alias in m.analyses then m.analyses[c.alias] else Analysis(c.packet, false, false);
      if begun.packet != c.packet {
        r := HaltRelay(m, AnalysisChanged);
        return;
      }
      if begun.evidence {
        return Ok(());
      }
      m := m.(analyses := m.analyses[c.alias := begun]);
      Save(m);
      if c.delegated && m.index != STEPS {
        begun := begun.(delegated := true);
        m := m.(analyses := m.analyses[c.alias := begun]);
      }
      Save(m);
      if !c.succeeded {
        r := HaltRelay(m, AnalysisFailed);
        return;
      }
      m := m.(analyses := m.analyses[c.alias := begun.(evidence := true)], complete := m.complete || m.index == STEPS);
      if !c.endSaved {
        r := HaltRelay(m, AnalysisFailed);
        return;
      }
      Save(m);
      r := Ok(());
    }

    // -------------------------------------------------------------------- repairs

    method RecoverReceipt(evidence: Option<Evidence>) returns (r: Result<(), Error>)
      modifies this
      ensures var t := RecoverRead(old(Snapshot()), evidence); Went(old(Snapshot()), old(history), t.states) && r == t.result
    {
      hide RecoverVerified, RecoverableRead;
      if main.None? || !ValidMain(main.value) {
        return Err(Missing);
      }
      var m := main.value;
      var already := m.steps[0].status.ReceivedReconciled?;
      if already && !(transition.Some? && m.index >= 1 && m.steps[0].recovery == Some(transition.value.receipt)) {
        return Err(EvidenceRefused);
      }
      var original := if already then Reconstructed(m) else m;
      if evidence.None? || evidence.value.original != original || !RecoverableRead(original) {
        return Err(EvidenceRefused);
      }
      var receipt := ReadReceipt(evidence.value.inboundTask, original);
      if transition.Some? && transition.value.receipt != receipt {
        return Err(EvidenceRefused);
      }
      r := RecoverInPhases(m, already, receipt);
    }

    method RecoverInPhases(m: Main, already: bool, receipt: ReadReceipt) returns (r: Result<(), Error>)
      requires |m.steps| == STEPS && |receipt.original.steps| == STEPS && main == Some(m)
      requires transition.Some? ==> transition.value.receipt == receipt
      modifies this
      ensures var t := RecoverVerified(old(Snapshot()), m, already, receipt);
        Went(old(Snapshot()), old(history), t.states) && r == t.result
    {
      var next := AppliedRead(receipt.original, receipt);
      var phase := if transition.Some? then Some(transition.value.phase) else None;
      if already {
        if phase != Some(ReceiptVerified) && phase != Some(Applied) {
          return Err(EvidenceRefused);
        }
        if m.steps[0] != next.steps[0] || (phase != Some(Applied) && m != next) {
          return Err(EvidenceRefused);
        }
        if phase == Some(Applied) {
          return Ok(());
        }
      } else {
        if phase == Some(Applied) {
          return Err(EvidenceRefused);
        }
        MarkVerified(phase, receipt);
        ReplaceVerified(next, receipt);
        return Ok(());
      }
      SaveTransition(Transition(Applied, receipt));
      r := Ok(());
    }

    method MarkVerified(phase: Option<Phase>, receipt: ReadReceipt)
      requires phase == Some(ReceiptVerified) ==> transition == Some(Transition(ReceiptVerified, receipt))
      requires phase != Some(Applied)
      modifies this
      ensures history == old(history) + VerifiedStates(old(Snapshot()), phase, receipt)
      ensures Snapshot() == old(Snapshot()).(transition := Some(Transition(ReceiptVerified, receipt)))
    {
      if phase.None? {
        SaveTransition(Transition(RecoveryIntent, receipt));
      }
      if phase != Some(ReceiptVerified) {
        SaveTransition(Transition(ReceiptVerified, receipt));
        assert phase.None? || phase.value.RecoveryIntent?;
      } else {
        assert history + [] == history;
      }
    }

    /** One replacement of the manifest, then the end of the transition. */
    method ReplaceVerified(next: Main, receipt: ReadReceipt)
      modifies this
      ensures var d := Put(old(Snapshot()), next);
        Went(old(Snapshot()), old(history), [d, d.(transition := Some(Transition(Applied, receipt)))])
    {
      Save(next);
      SaveTransition(Transition(Applied, receipt));
    }

    method PrepareSendRepair(n: nat, cursor: nat, fits: bool) returns (r: Result<(), Error>)
      modifies this
      ensures var t := PrepareReconciliation(old(Snapshot()), n, cursor, fits);
        Went(old(Snapshot()), old(history), t.states) && r == t.result
    {
      hide RecoverableSend;
      if main.None? || !RecoverableSend(main.value, n) || !fits {
        return Err(EvidenceRefused);
      }
      if n in sends {
        return if sends[n].original == main.value && sends[n].previousCursor == cursor then Ok(()) else Err(EvidenceRefused);
      }
      SaveSend(n, SendRecord(n, main.value, cursor, 0, Ready, None));
      r := Ok(());
    }

    method ObserveSend(n: nat, fits: bool, authorized: bool, outcome: Observation) returns (r: Result<(), Error>)
      modifies this
      ensures var t := Observe(old(Snapshot()), n, fits, authorized, outcome);
        Went(old(Snapshot()), old(history), t.states) && r == t.result
    {
      hide RecoverableSend;
      if main.None? || n !in sends || !fits || !authorized {
        return Err(EvidenceRefused);
      }
      var record := sends[n];
      if !record.status.Ready? || record.attempts != 0 || record.original != main.value || !RecoverableSend(main.value, n) {
        return Err(EvidenceRefused);
      }
      SaveSend(n, record.(attempts := 1, status := GetIntended));
      var settled := if outcome.Observed? || outcome.NotObserved? then outcome else ObservationFailed;
      assert sends[n := record.(attempts := 1, status := settled)] == old(sends)[n := record.(attempts := 1, status := settled)];
      SaveSend(n, record.(attempts := 1, status := settled));
      r := Ok(());
    }

    method ApplySendRepair(n: nat, fits: bool, authority: bool) returns (r: Result<(), Error>)
      modifies this
      ensures var t := ApplySend(old(Snapshot()), n, fits, authority);
        Went(old(Snapshot()), old(history), t.states) && r == t.result
    {
      hide ApplyFirst;
      if main.None? || |main.value.steps| != STEPS || n !in sends || !authority {
        return Err(EvidenceRefused);
      }
      var m, record := main.value, sends[n];
      if !record.status.Observed? || record.attempts != 1 || record.status.at != record.previousCursor + 1
         || record.step != n || !(1 <= n <= STEPS) || |record.original.steps| != STEPS
      {
        return Err(EvidenceRefused);
      }
      var receipt := SendReceipt(n, record.status.at, record.original);
      if record.apply.Some? && record.apply.value.receipt != receipt {
        return Err(EvidenceRefused);
      }
      var step := m.steps[n - 1];
      if step.sendRecovery.None? {
        r := InstallSendRepair(m, record, receipt, fits);
        return;
      }
      if record.apply.None? || step.sendRecovery != Some(receipt) || step.at != Some(receipt.at) {
        return Err(EvidenceRefused);
      }
      if record.apply.value.done {
        return Ok(());
      }
      if m != record.apply.value.next {
        return Err(EvidenceRefused);
      }
      SaveSend(n, record.(apply := Some(record.apply.value.(done := true))));
      r := Ok(());
    }

    method InstallSendRepair(m: Main, record: SendRecord, receipt: SendReceipt, fits: bool) returns (r: Result<(), Error>)
      requires 1 <= receipt.step <= |m.steps| && main == Some(m)
      requires receipt.step in sends && sends[receipt.step] == record
      requires record.apply.Some? ==> record.apply.value.receipt == receipt
      modifies this
      ensures var t := ApplyFirst(old(Snapshot()), m, record, receipt, fits);
        Went(old(Snapshot()), old(history), t.states) && r == t.result
    {
      hide RecoverableSend, AppliedSend;
      if (record.apply.Some? && record.apply.value.done) || !fits || record.original != m || !RecoverableSend(m, receipt.step) {
        return Err(EvidenceRefused);
      }
      var next := AppliedSend(m, receipt);
      if record.apply.Some? && record.apply.value.next != next {
        return Err(EvidenceRefused);
      }
      // With an intent already recorded the record on disk is that intent.
      var intent := record.(apply := Some(Apply(false, receipt, next)));
      if record.apply.None? {
        SaveSend(receipt.step, intent);
      } else {
        assert sends[receipt.step := intent] == sends;
      }
      Save(next);
      SaveSend(receipt.step, intent.(apply := Some(Apply(true, receipt, next))));
      r := Ok(());
    }
  }
}
