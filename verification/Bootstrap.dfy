/**
 The lifecycle of one external bootstrap: one signed POST, one bounded read, evidence staged in a
 checkpoint file, and a record that is rewritten after every decision. Each operation is the sequence
 of disk states and network events it goes through; a crash keeps a prefix of it.
 */
module Bootstrap {
  import opened Wrappers

  datatype State =
    | Prepared | Authorized | Sending | Sent | AwaitingResponse | AcceptedEvidence
    | NoResponse | InvalidResponse | AmbiguousDelivery | Rejected

  predicate Terminal(s: State) {
    s.AcceptedEvidence? || s.NoResponse? || s.InvalidResponse? || s.AmbiguousDelivery? || s.Rejected?
  }

  datatype Approval = Requested | Approved | Executing | Confirmed | AmbiguousResult | FailedResult

  /** What one bounded read retained: the window, and the messages that mention this bootstrap. */
  datatype Checkpoint = Checkpoint(
    previousCursor: nat, firstSeq: Option<nat>, lastSeq: nat, lastReturned: Option<nat>,
    generation: Option<nat>, matching: seq<nat>, overflow: bool)

  datatype Code =
    | GenerationMismatch | RetentionGap | SequenceRegression | IncompleteWindow | ConflictingResponse
    | Unverified | TargetDeclined | SchemaMismatch

  datatype Response = Response(at: nat, verified: bool, accepted: Option<bool>, failure: Option<Code>, acknowledged: bool)

  datatype ReadFailure = TransportFailed | PersistenceFailed

  datatype Record = Record(
    state: State, sendCount: nat, sentSeq: Option<nat>,
    since: nat, generation: Option<nat>, acknowledged: nat,
    readCount: nat, readFailure: Option<ReadFailure>, linked: Option<Checkpoint>,
    response: Option<Response>, challengeUsed: bool, envelope: bool, proposal: bool)

  /** A staged checkpoint is torn until its content is written and synced. */
  datatype Staged = Torn | Whole(value: Checkpoint)

  /** The record, its approval, its files, and the requests that ever left for the network. */
  datatype Disk = Disk(
    record: Record, approval: Approval, final: Option<Checkpoint>, candidate: Option<Staged>, proposalFile: bool,
    posts: nat, gets: nat)

  datatype Error =
    | NotPermitted | Expired | NotConfirmed | NotAwaiting | EvidenceChanged | BadClock | ReadIncomplete | CursorRegression
    | NoReadIntent | DeadlineNotElapsed | NotAccepted

  datatype Trace = Trace(states: seq<Disk>, result: Result<(), Error>)

  function Last(d: Disk, states: seq<Disk>): Disk {
    if states == [] then d else states[|states| - 1]
  }

  /** A trace that goes on from where the first part ended, unless that part failed. */
  function Then(states: seq<Disk>, rest: Trace): Trace {
    Trace(states + rest.states, rest.result)
  }

  function Put(d: Disk, r: Record): Disk {
    d.(record := r)
  }

  // ------------------------------------------------------------------- what is stored

  predicate NeedsSend(s: State) {
    s.Sending? || s.AmbiguousDelivery? || NeedsReceipt(s)
  }

  predicate NeedsReceipt(s: State) {
    s.Sent? || s.AwaitingResponse? || s.AcceptedEvidence? || s.NoResponse? || s.InvalidResponse?
  }

  /** The lifecycle linkage demanded of every record that is read back. */
  predicate Stored(r: Record) {
    && r.sendCount <= 1 && r.readCount <= 1
    && (r.state.Prepared? || r.state.Authorized? ==> r.sendCount == 0)
    && (NeedsSend(r.state) ==> r.sendCount == 1)
    && (NeedsReceipt(r.state) ==> r.sentSeq.Some?)
    && (r.state.AcceptedEvidence? ==>
          r.response.Some? && r.response.value.verified && r.response.value.accepted == Some(true) && r.challengeUsed && r.envelope)
    && (r.state.InvalidResponse? ==> r.response.Some? && !r.response.value.verified)
    && (r.response.Some? ==> r.response.value.at >= 1)
  }

  function Fresh(since: nat, generation: Option<nat>): Disk {
    Disk(Record(Prepared, 0, None, since, generation, since, 0, None, None, None, false, false, false),
         Requested, None, None, false, 0, 0)
  }

  // ------------------------------------------------------------------- authorization

  /** `current` stands for the checks of stored bindings against identities and discovery evidence. */
  function Authorize(d: Disk, current: bool): Trace {
    if !current then Trace([], Err(NotPermitted))
    else if d.record.state.Prepared? && d.approval.Approved? then Trace([Put(d, d.record.(state := Authorized))], Ok(()))
    else if !d.record.state.Prepared? || !d.approval.Requested? then Trace([], Err(NotPermitted))
    else
      var d1 := d.(approval := Approved);
      Trace([d1, Put(d1, d1.record.(state := Authorized))], Ok(()))
  }

  // ---------------------------------------------------------------------------- sending

  datatype Reply = Receipt(at: nat, generation: Option<nat>) | OtherReceipt | Refused | NoReply

  /** How the parts of a send that this model does not decide turn out, in the order they are reached. */
  datatype SendCourse = SendCourse(
    current: bool, expired: bool,
    ready: bool,              // identity unlocked, guards passed, not expired just before consumption
    expiredConsumed: bool,    // expired right after consumption
    signed: bool,             // nonce reserved and message signed
    bound: bool,              // bindings unchanged and not expired before the intent
    expiredIntent: bool,      // expired after the intent was saved
    reply: Reply,
    outcomeSaved: bool,       // the approval store accepts the outcome
    doubtSaved: bool,         // if it did not accept a confirmation, it accepts the doubt
    recordsSaved: nat)        // how many record writes after the receipt succeed

  function SetApproval(d: Disk, a: Approval, saved: bool): seq<Disk> {
    if saved then [d.(approval := a)] else []
  }

  /** The approval's outcome, then the record's. */
  function EndSend(d: Disk, a: Approval, saved: bool, r: Record): seq<Disk> {
    var first := SetApproval(d, a, saved);
    first + [Put(Last(d, first), r)]
  }

  function Send(d: Disk, c: SendCourse): Trace {
    var r := d.record;
    if !c.current || !r.state.Authorized? then Trace([], Err(NotPermitted))
    else if c.expired then Trace([Put(d, r.(state := Rejected))], Err(Expired))
    else if !c.ready || !d.approval.Approved? then Trace([Put(d, r.(state := Rejected))], Ok(()))
    else Then([d.(approval := Executing)], SendSpent(d.(approval := Executing), c))
  }

  /** With the approval spent: nonce, bindings, durable intent, POST. */
  function SendSpent(d: Disk, c: SendCourse): Trace {
    var r := d.record;
    if c.expiredConsumed || !c.signed then Trace(EndSend(d, FailedResult, c.outcomeSaved, r.(state := Rejected)), Ok(()))
    else if !c.bound then Trace(EndSend(d, AmbiguousResult, c.outcomeSaved, r.(state := Rejected)), Ok(()))
    else
      var intent := r.(state := Sending, sendCount := 1);
      var d1 := Put(d, intent);
      if c.expiredIntent then
        Trace([d1] + EndSend(d1, AmbiguousResult, c.outcomeSaved, intent.(state := Rejected, sendCount := 0)), Ok(()))
      else Then([d1, d1.(posts := d1.posts + 1)], SettleSend(d1.(posts := d1.posts + 1), c))
  }

  /** The approval confirmed, then the record sent and awaiting, as far as its writes succeed. */
  function ConfirmedStates(d: Disk, r: Record, saved: nat): seq<Disk> {
    var d2 := d.(approval := Confirmed);
    [d2] + (if saved >= 2 then [Put(d2, r.(state := Sent))] else [])
    + [Put(d2, r.(state := if saved >= 3 then AwaitingResponse else AmbiguousDelivery))]
  }

  function SettleSend(d: Disk, c: SendCourse): Trace {
    var r := d.record;
    match c.reply
    case Refused => Trace(EndSend(d, FailedResult, c.outcomeSaved, r.(state := Rejected)), Ok(()))
    case Receipt(n, generation) =>
      if n < 1 then Trace(EndSend(d, AmbiguousResult, c.outcomeSaved, r.(state := AmbiguousDelivery)), Ok(()))
      else
        var received := r.(sentSeq := Some(n), since := n, acknowledged := n,
                           generation := if generation.Some? then generation else r.generation);
        var d1 := Put(d, received);
        if c.recordsSaved == 0 then
          Trace(EndSend(d, AmbiguousResult, c.outcomeSaved, received.(state := AmbiguousDelivery)), Ok(()))
        else if !c.outcomeSaved then
          Trace([d1] + EndSend(d1, AmbiguousResult, c.doubtSaved, received.(state := AmbiguousDelivery)), Ok(()))
        else
          Trace([d1] + ConfirmedStates(d1, received, c.recordsSaved), Ok(()))
    case _ => Trace(EndSend(d, AmbiguousResult, c.outcomeSaved, r.(state := AmbiguousDelivery)), Ok(()))
  }

  // ------------------------------------------------------------------ observation rules

  function NextCursor(c: Checkpoint): nat {
    if c.lastReturned.Some? then c.lastReturned.value else c.previousCursor
  }

  predicate SameGeneration(c: Checkpoint, expected: Option<nat>) {
    expected.Some? ==> c.generation == expected
  }

  predicate GapFree(c: Checkpoint) {
    c.firstSeq.Some? ==> c.firstSeq.value <= c.previousCursor + 1
  }

  predicate InOrder(c: Checkpoint) {
    && c.previousCursor <= c.lastSeq
    && (c.firstSeq.None? ==> c.lastReturned.None?)
    && (c.firstSeq.Some? ==> c.firstSeq.value <= c.lastSeq)
    && (c.lastReturned.Some? ==> c.previousCursor < c.lastReturned.value <= c.lastSeq)
    && (forall i | 0 <= i < |c.matching| ::
          && c.previousCursor < c.matching[i] <= c.lastSeq
          && (c.firstSeq.Some? ==> c.firstSeq.value <= c.matching[i])
          && (i > 0 ==> c.matching[i - 1] < c.matching[i]))
  }

  predicate CompleteWindow(c: Checkpoint) {
    NextCursor(c) >= c.lastSeq
  }

  /** A window that may move the cursor. */
  predicate Safe(c: Checkpoint, generation: Option<nat>) {
    && SameGeneration(c, generation) && GapFree(c) && InOrder(c) && CompleteWindow(c)
    && !c.overflow && |c.matching| <= 1
  }

  function UnsafeCode(c: Checkpoint, generation: Option<nat>): Code {
    if !SameGeneration(c, generation) then GenerationMismatch
    else if !GapFree(c) then RetentionGap
    else if !InOrder(c) then SequenceRegression
    else if !CompleteWindow(c) then IncompleteWindow
    else ConflictingResponse
  }

  predicate UnsafeFailure(r: Record) {
    && r.state.InvalidResponse? && r.response.Some? && r.response.value.failure.Some?
    && var code := r.response.value.failure.value;
    code.GenerationMismatch? || code.RetentionGap? || code.SequenceRegression? || code.IncompleteWindow? || code.ConflictingResponse?
  }

  /** What a checkpoint must look like to be used with a record; its times are covered by `clock`. */
  predicate Usable(c: Checkpoint, r: Record) {
    && c.previousCursor == r.since && |c.matching| <= 16 && r.readCount == 1
    && (c.firstSeq.Some? ==> c.firstSeq.value >= 1) && (c.lastReturned.Some? ==> c.lastReturned.value >= 1)
    && forall i | 0 <= i < |c.matching| :: c.matching[i] >= 1
  }

  // ------------------------------------------------------------------------- receiving

  /** What checking the one matching message finds. */
  datatype Verdict = Accepts | Declines | Mismatches | Unverifiable

  function Linked(r: Record, c: Checkpoint): Record {
    r.(linked := Some(c), readFailure := None)
  }

  function FirstOf(c: Checkpoint): nat {
    if c.matching != [] then c.matching[0] else if c.lastReturned.Some? then c.lastReturned.value else c.previousCursor + 1
  }

  function Judged(r: Record, c: Checkpoint, verdict: Verdict): Record
    requires |c.matching| == 1
  {
    var verified := !verdict.Unverifiable? && !r.challengeUsed;
    var response := Response(c.matching[0], verified,
      if verified then Some(!verdict.Declines?) else None,
      if !verified then Some(Unverified)
      else if verdict.Declines? then Some(TargetDeclined) else if verdict.Mismatches? then Some(SchemaMismatch) else None, false);
    Linked(r, c).(response := Some(response), challengeUsed := r.challengeUsed || verified, envelope := r.envelope || verified,
                  state := if !verified then InvalidResponse else if verdict.Accepts? then AcceptedEvidence else Rejected)
  }

  /** Links the evidence first; only a safe window moves the cursor, and only afterwards. */
  function Process(d: Disk, c: Checkpoint, verdict: Verdict, clock: bool): Trace {
    if !clock || !Usable(c, d.record) then Trace([], Err(BadClock))
    else if !Safe(c, d.record.generation) then
      var response := Response(FirstOf(c), false, None, Some(UnsafeCode(c, d.record.generation)), false);
      Trace([Put(d, Linked(d.record, c).(state := InvalidResponse, response := Some(response)))], Ok(()))
    else if c.matching == [] then
      var d1 := Put(d, Linked(d.record, c));
      Then([d1], Advance(d1, c))
    else
      var d1 := Put(d, Judged(d.record, c, verdict));
      Then([d1], Advance(d1, c))
  }

  /** The cursor, then the response's acknowledgement. */
  function Advance(d: Disk, c: Checkpoint): Trace {
    if NextCursor(c) < d.record.acknowledged then Trace([], Err(CursorRegression))
    else
      var d1 := Put(d, d.record.(acknowledged := NextCursor(c)));
      if d1.record.response.None? then Trace([d1], Ok(()))
      else Trace([d1, AckResponse(d1)], Ok(()))
  }

  function AckResponse(d: Disk): Disk
    requires d.record.response.Some?
  {
    Put(d, d.record.(response := Some(d.record.response.value.(acknowledged := true))))
  }

  /** Finishes what a crash interrupted after linking; `None` when there was nothing to finish. */
  function CompleteCursor(d: Disk, clock: bool): Option<Trace> {
    if d.record.linked.None? then None
    else
      var c := d.record.linked.value;
      if d.final != Some(c) then Some(Trace([], Err(EvidenceChanged)))
      else if !clock || !Usable(c, d.record) then Some(Trace([], Err(BadClock)))
      else if d.record.acknowledged < NextCursor(c) then
        var d1 := Put(d, d.record.(acknowledged := NextCursor(c)));
        Some(Trace([d1] + (if d1.record.response.Some? && !d1.record.response.value.acknowledged then [AckResponse(d1)] else []), Ok(())))
      else if d.record.response.Some? && !d.record.response.value.acknowledged then Some(Trace([AckResponse(d)], Ok(())))
      else None
  }

  datatype Found = Nothing | Evidence(value: Checkpoint) | Unreadable

  /** What the files of an unlinked observation say. */
  function Examine(d: Disk, clock: bool): Found {
    if d.final.None? && d.candidate.None? then Nothing
    else if d.candidate == Some(Torn) then Unreadable
    else
      var value := if d.final.Some? then d.final.value else d.candidate.value.value;
      if !clock || !Usable(value, d.record) then Unreadable
      else if d.candidate.Some? && d.candidate.value.value != value then Unreadable
      else Evidence(value)
  }

  /** `None` when there is no unlinked evidence to recover. */
  function RecoverUnlinked(d: Disk, verdict: Verdict, clock: bool): Option<Trace> {
    if d.record.linked.Some? then None
    else match Examine(d, clock)
      case Nothing => None
      case Unreadable =>
        Some(Trace([Put(d, d.record.(state := AmbiguousDelivery, readFailure := Some(PersistenceFailed)))], Ok(())))
      case Evidence(c) =>
        var d1 := if d.final.Some? then d else d.(final := Some(c), candidate := None);
        Some(Then(if d.final.Some? then [] else [d1], Process(d1, c, verdict, clock)))
  }

  datatype Window = Failed | Malformed | Window(checkpoint: Checkpoint)

  /** What the read returned, how far staging the checkpoint got, and the rest that is not decided here. */
  datatype ReceiveCourse = ReceiveCourse(
    current: bool, expired: bool, clock: bool, window: Window, staged: nat, verdict: Verdict)

  /** A view that passed the checks on its messages. */
  predicate FromRead(c: Checkpoint, r: Record) {
    && c.previousCursor == r.since && |c.matching| <= 16
    && (c.firstSeq.Some? ==> c.firstSeq.value >= 1)
    && (c.lastReturned.Some? ==> c.lastReturned.value > r.since)
    && forall i | 0 <= i < |c.matching| :: c.matching[i] > r.since
  }

  function FailRead(d: Disk, failure: ReadFailure): Trace {
    Trace([Put(d, d.record.(readFailure := Some(failure)))], Err(ReadIncomplete))
  }

  /** Candidate created, written, renamed; then processed. `staged < 3` is a failure after that many steps. */
  function Stage(d: Disk, c: Checkpoint, course: ReceiveCourse): Trace {
    if d.candidate.Some? || d.final.Some? || course.staged == 0 then FailRead(d, PersistenceFailed)
    else
      var d1 := d.(candidate := Some(Torn));
      if course.staged == 1 then Then([d1], FailRead(d1, PersistenceFailed))
      else
        var d2 := d.(candidate := Some(Whole(c)));
        if course.staged == 2 then Then([d1, d2], FailRead(d2, PersistenceFailed))
        else
          var d3 := d.(final := Some(c));
          if course.staged == 3 then Then([d1, d2, d3], FailRead(d3, PersistenceFailed))
          else Then([d1, d2, d3], Process(d3, c, course.verdict, course.clock))
  }

  function AfterGet(d: Disk, course: ReceiveCourse): Trace {
    match course.window
    case Failed => FailRead(d, TransportFailed)
    case Malformed => FailRead(d, PersistenceFailed)
    case Window(c) => if FromRead(c, d.record) then Stage(d, c, course) else FailRead(d, PersistenceFailed)
  }

  /** A durable intent, one GET, and what it returned. */
  function Read(d: Disk, course: ReceiveCourse): Trace {
    var d1 := Put(d, d.record.(readCount := 1));
    var d2 := d1.(gets := d1.gets + 1);
    Then([d1, d2], AfterGet(d2, course))
  }

  function Receive(d: Disk, course: ReceiveCourse): Trace {
    if !course.current then Trace([], Err(NotPermitted))
    else if UnsafeFailure(d.record) then Trace([], Ok(()))
    else
      var pending := CompleteCursor(d, course.clock);
      if pending.Some? then pending.value
      else if Terminal(d.record.state) then Trace([], Ok(()))
      else if d.record.state.Sent? then
        if !d.approval.Confirmed? then Trace([], Err(NotConfirmed))
        else
          var d1 := Put(d, d.record.(state := AwaitingResponse));
          Then([d1], Await(d1, course))
      else if !d.record.state.AwaitingResponse? then Trace([], Err(NotAwaiting))
      else Await(d, course)
  }

  function Await(d: Disk, course: ReceiveCourse): Trace {
    var recovered := RecoverUnlinked(d, course.verdict, course.clock);
    if recovered.Some? then recovered.value
    else if course.expired then Trace([], Err(Expired))
    else if d.record.readCount >= 1 then Trace([], Ok(()))
    else Read(d, course)
  }

  // --------------------------------------------------------------- timeout and proposal

  function Timeout(d: Disk, current: bool, expired: bool, clock: bool, verdict: Verdict): Trace {
    if !current then Trace([], Err(NotPermitted))
    else if Terminal(d.record.state) then Trace([], Ok(()))
    else
      var recovered := if d.record.state.AwaitingResponse? then RecoverUnlinked(d, verdict, clock) else None;
      if recovered.Some? && recovered.value.result.Err? then recovered.value
      else
        var states := if recovered.Some? then recovered.value.states else [];
        var d1 := Last(d, states);
        if recovered.Some? && Terminal(d1.record.state) then Trace(states, Ok(()))
        else Then(states, Conclude(d1, expired, clock))
  }

  function Conclude(d: Disk, expired: bool, clock: bool): Trace {
    if !d.record.state.AwaitingResponse? || d.record.readCount != 1 || !expired then Trace([], Err(DeadlineNotElapsed))
    else if d.record.linked.None? || d.record.readFailure.Some? then
      var failure := if d.record.readFailure.Some? then d.record.readFailure else Some(PersistenceFailed);
      Trace([Put(d, d.record.(state := AmbiguousDelivery, readFailure := failure))], Ok(()))
    else
      var pending := CompleteCursor(d, clock);
      if pending.Some? && pending.value.result.Err? then pending.value
      else
        var states := if pending.Some? then pending.value.states else [];
        var d1 := Last(d, states);
        Then(states, Trace([Put(d1, d1.record.(state := NoResponse))], Ok(())))
  }

  function Propose(d: Disk, current: bool, clock: bool): Trace {
    if !current || !d.record.state.AcceptedEvidence? then Trace([], Err(NotAccepted))
    else
      var pending := CompleteCursor(d, clock);
      if pending.Some? && pending.value.result.Err? then pending.value
      else
        var states := if pending.Some? then pending.value.states else [];
        var d1 := Last(d, states);
        if d1.final.None? || |d1.final.value.matching| != 1 then Trace(states, Err(EvidenceChanged))
        else if d1.proposalFile && d1.record.proposal then Trace(states, Ok(()))
        else
          var d2 := d1.(proposalFile := true);
          Then(states, Trace((if d1.proposalFile then [] else [d2]) + [Put(d2, d2.record.(proposal := true))], Ok(())))
  }

  // ------------------------------------------------------------ runs, cut off anywhere

  datatype Operation =
    | DoAuthorize(current: bool)
    | DoSend(send: SendCourse)
    | DoReceive(receive: ReceiveCourse)
    | DoTimeout(current: bool, expired: bool, clock: bool, verdict: Verdict)
    | DoPropose(current: bool, clock: bool)

  function TraceOf(d: Disk, op: Operation): Trace {
    match op
    case DoAuthorize(current) => Authorize(d, current)
    case DoSend(c) => Send(d, c)
    case DoReceive(c) => Receive(d, c)
    case DoTimeout(current, expired, clock, verdict) => Timeout(d, current, expired, clock, verdict)
    case DoPropose(current, clock) => Propose(d, current, clock)
  }

  datatype Attempt = Attempt(operation: Operation, cut: nat)

  function After(d: Disk, a: Attempt): Disk {
    var states := TraceOf(d, a.operation).states;
    Last(d, if a.cut <= |states| then states[..a.cut] else states)
  }

  function AfterAll(d: Disk, runs: seq<Attempt>): Disk {
    if runs == [] then d else After(AfterAll(d, runs[..|runs| - 1]), runs[|runs| - 1])
  }

  // ----------------------------------------------------------------- the coordinator

  /** One bootstrap's files, approval and network, changed one step at a time; `history` records every state. */
  class Coordinator {
    var record: Record
    var approval: Approval
    var final: Option<Checkpoint>
    var candidate: Option<Staged>
    var proposalFile: bool
    var posts: nat
    var gets: nat
    ghost var history: seq<Disk>

    constructor (d: Disk)
      ensures Snapshot() == d && history == []
    {
      record, approval, final, candidate := d.record, d.approval, d.final, d.candidate;
      proposalFile, posts, gets, history := d.proposalFile, d.posts, d.gets, [];
    }

    ghost function Snapshot(): Disk
      reads this
    {
      Disk(record, approval, final, candidate, proposalFile, posts, gets)
    }

    ghost predicate Went(before: Disk, past: seq<Disk>, states: seq<Disk>)
      reads this
    {
      history == past + states && Snapshot() == Last(before, states)
    }

    method Save(r: Record)
      modifies this
      ensures Went(old(Snapshot()), old(history), [Put(old(Snapshot()), r)])
    {
      record := r;
      history := history + [Snapshot()];
    }

    method Approve(a: Approval)
      modifies this
      ensures Went(old(Snapshot()), old(history), [old(Snapshot()).(approval := a)])
    {
      approval := a;
      history := history + [Snapshot()];
    }

    method AuthorizeAction(current: bool) returns (r: Result<(), Error>)
      modifies this
      ensures var t := Authorize(old(Snapshot()), current); Went(old(Snapshot()), old(history), t.states) && r == t.result
    {
      if !current {
        return Err(NotPermitted);
      }
      if !record.state.Prepared? || !(approval.Requested? || approval.Approved?) {
        return Err(NotPermitted);
      }
      if approval.Requested? {
        Approve(Approved);
      }
      Save(record.(state := Authorized));
      r := Ok(());
    }

    method FinishSend(a: Approval, saved: bool, r: Record)
      modifies this
      ensures Went(old(Snapshot()), old(history), EndSend(old(Snapshot()), a, saved, r))
    {
      if saved {
        Approve(a);
      }
      Save(r);
    }

    method SendRequest(c: SendCourse) returns (r: Result<(), Error>)
      modifies this
      ensures var t := Send(old(Snapshot()), c); Went(old(Snapshot()), old(history), t.states) && r == t.result
    {
      hide SendSpent;
      if !c.current || !record.state.Authorized? {
        return Err(NotPermitted);
      }
      if c.expired {
        Save(record.(state := Rejected));
        return Err(Expired);
      }
      if !c.ready || !approval.Approved? {
        Save(record.(state := Rejected));
        return Ok(());
      }
      Approve(Executing);
      r := SendConsumed(c);
    }

    method SendConsumed(c: SendCourse) returns (r: Result<(), Error>)
      modifies this
      ensures var t := SendSpent(old(Snapshot()), c); Went(old(Snapshot()), old(history), t.states) && r == t.result
    {
      hide EndSend, SettleSend;
      r := Ok(());
      if c.expiredConsumed || !c.signed {
        FinishSend(FailedResult, c.outcomeSaved, record.(state := Rejected));
        return;
      }
      if !c.bound {
        FinishSend(AmbiguousResult, c.outcomeSaved, record.(state := Rejected));
        return;
      }
      Save(record.(state := Sending, sendCount := 1));
      if c.expiredIntent {
        FinishSend(AmbiguousResult, c.outcomeSaved, record.(state := Rejected, sendCount := 0));
        return;
      }
      posts := posts + 1;
      history := history + [Snapshot()];
      r := SettleReply(c);
    }

    method SettleReply(c: SendCourse) returns (r: Result<(), Error>)
      modifies this
      ensures var t := SettleSend(old(Snapshot()), c); Went(old(Snapshot()), old(history), t.states) && r == t.result
    {
      hide EndSend, ConfirmedStates;
      r := Ok(());
      match c.reply
      case Refused => FinishSend(FailedResult, c.outcomeSaved, record.(state := Rejected));
      case Receipt(n, generation) =>
        if n < 1 {
          FinishSend(AmbiguousResult, c.outcomeSaved, record.(state := AmbiguousDelivery));
          return;
        }
        var received := record.(sentSeq := Some(n), since := n, acknowledged := n,
                                generation := if generation.Some? then generation else record.generation);
        SettleReceipt(c, received);
      case _ => FinishSend(AmbiguousResult, c.outcomeSaved, record.(state := AmbiguousDelivery));
    }

    method SettleReceipt(c: SendCourse, received: Record)
      requires c.reply.Receipt? && c.reply.at >= 1
      requires received == record.(sentSeq := Some(c.reply.at), since := c.reply.at, acknowledged := c.reply.at,
                                   generation := if c.reply.generation.Some? then c.reply.generation else record.generation)
      modifies this
      ensures Went(old(Snapshot()), old(history), SettleSend(old(Snapshot()), c).states)
    {
      hide ConfirmedStates, EndSend;
      if c.recordsSaved == 0 {
        FinishSend(AmbiguousResult, c.outcomeSaved, received.(state := AmbiguousDelivery));
        return;
      }
      Save(received);
      if !c.outcomeSaved {
        FinishSend(AmbiguousResult, c.doubtSaved, received.(state := AmbiguousDelivery));
        return;
      }
      ConfirmReceipt(received, c.recordsSaved);
    }

    method ConfirmReceipt(received: Record, saved: nat)
      modifies this
      ensures Went(old(Snapshot()), old(history), ConfirmedStates(old(Snapshot()), received, saved))
    {
      Approve(Confirmed);
      if saved >= 2 {
        Save(received.(state := Sent));
      }
      Save(received.(state := if saved >= 3 then AwaitingResponse else AmbiguousDelivery));
    }

    // ----------------------------------------------------------------- receiving

    method AdvanceCursor(c: Checkpoint) returns (r: Result<(), Error>)
      modifies this
      ensures var t := Advance(old(Snapshot()), c); Went(old(Snapshot()), old(history), t.states) && r == t.result
    {
      if NextCursor(c) < record.acknowledged {
        return Err(CursorRegression);
      }
      Save(record.(acknowledged := NextCursor(c)));
      if record.response.Some? {
        Save(record.(response := Some(record.response.value.(acknowledged := true))));
      }
      r := Ok(());
    }

    method ProcessCheckpoint(c: Checkpoint, verdict: Verdict, clock: bool) returns (r: Result<(), Error>)
      modifies this
      ensures var t := Process(old(Snapshot()), c, verdict, clock); Went(old(Snapshot()), old(history), t.states) && r == t.result
    {
      hide Advance, Usable;
      if !clock || !Usable(c, record) {
        return Err(BadClock);
      }
      if !Safe(c, record.generation) {
        var response := Response(FirstOf(c), false, None, Some(UnsafeCode(c, record.generation)), false);
        Save(Linked(record, c).(state := InvalidResponse, response := Some(response)));
        return Ok(());
      }
      if c.matching == [] {
        Save(Linked(record, c));
      } else {
        Save(Judged(record, c, verdict));
      }
      r := AdvanceCursor(c);
    }

    /** `done` when something interrupted was finished, or could not be. */
    method CompletePendingCursor(clock: bool) returns (done: bool, r: Result<(), Error>)
      modifies this
      ensures var t := CompleteCursor(old(Snapshot()), clock);
        && done == t.Some? && r == (if t.Some? then t.value.result else Ok(()))
        && Went(old(Snapshot()), old(history), if t.Some? then t.value.states else [])
    {
      if record.linked.None? {
        return false, Ok(());
      }
      var c := record.linked.value;
      if final != Some(c) {
        return true, Err(EvidenceChanged);
      }
      if !clock || !Usable(c, record) {
        return true, Err(BadClock);
      }
      done, r := false, Ok(());
      if record.acknowledged < NextCursor(c) {
        Save(record.(acknowledged := NextCursor(c)));
        done := true;
      }
      if record.response.Some? && !record.response.value.acknowledged {
        Save(record.(response := Some(record.response.value.(acknowledged := true))));
        done := true;
      }
    }

    method RecoverUnlinkedCheckpoint(verdict: Verdict, clock: bool) returns (done: bool, r: Result<(), Error>)
      modifies this
      ensures var t := RecoverUnlinked(old(Snapshot()), verdict, clock);
        && done == t.Some? && r == (if t.Some? then t.value.result else Ok(()))
        && Went(old(Snapshot()), old(history), if t.Some? then t.value.states else [])
    {
      hide Process, Examine;
      if record.linked.Some? {
        return false, Ok(());
      }
      var found := ExamineFiles(clock);
      match found {
        case Nothing => return false, Ok(());
        case Unreadable =>
          Save(record.(state := AmbiguousDelivery, readFailure := Some(PersistenceFailed)));
          return true, Ok(());
        case Evidence(c) =>
          done := true;
          r := ProcessFound(c, verdict, clock);
      }
    }

    /** Installs a staged checkpoint when that is all there is, then processes it. */
    method ProcessFound(c: Checkpoint, verdict: Verdict, clock: bool) returns (r: Result<(), Error>)
      modifies this
      ensures var d := old(Snapshot()); var d1 := if d.final.Some? then d else d.(final := Some(c), candidate := None);
        var t := Then(if d.final.Some? then [] else [d1], Process(d1, c, verdict, clock));
        Went(d, old(history), t.states) && r == t.result
    {
      hide Process;
      if final.None? {
        final, candidate := Some(c), None;
        history := history + [Snapshot()];
      }
      r := ProcessCheckpoint(c, verdict, clock);
    }

    method ExamineFiles(clock: bool) returns (found: Found)
      ensures found == Examine(Snapshot(), clock)
    {
      if final.None? && candidate.None? {
        return Nothing;
      }
      if candidate == Some(Torn) {
        return Unreadable;
      }
      var value := if final.Some? then final.value else candidate.value.value;
      if !clock || !Usable(value, record) || (candidate.Some? && candidate.value.value != value) {
        return Unreadable;
      }
      found := Evidence(value);
    }

    method StageCheckpoint(c: Checkpoint, course: ReceiveCourse) returns (r: Result<(), Error>)
      modifies this
      ensures var t := Stage(old(Snapshot()), c, course); Went(old(Snapshot()), old(history), t.states) && r == t.result
    {
      hide Process;
      if candidate.Some? || final.Some? || course.staged == 0 {
        r := FailObservation(PersistenceFailed);
        return;
      }
      candidate := Some(Torn);
      history := history + [Snapshot()];
      if course.staged >= 2 {
        candidate := Some(Whole(c));
        history := history + [Snapshot()];
      }
      if course.staged >= 3 {
        final, candidate := Some(c), None;
        history := history + [Snapshot()];
      }
      if course.staged <= 3 {
        r := FailObservation(PersistenceFailed);
      } else {
        r := ProcessCheckpoint(c, course.verdict, course.clock);
      }
    }

    method FailObservation(failure: ReadFailure) returns (r: Result<(), Error>)
      modifies this
      ensures var t := FailRead(old(Snapshot()), failure); Went(old(Snapshot()), old(history), t.states) && r == t.result
    {
      Save(record.(readFailure := Some(failure)));
      r := Err(ReadIncomplete);
    }

    method ReadOnce(course: ReceiveCourse) returns (r: Result<(), Error>)
      modifies this
      ensures var t := Read(old(Snapshot()), course); Went(old(Snapshot()), old(history), t.states) && r == t.result
    {
      hide Stage;
      Save(record.(readCount := 1));
      gets := gets + 1;
      history := history + [Snapshot()];
      match course.window {
        case Failed => r := FailObservation(TransportFailed);
        case Malformed => r := FailObservation(PersistenceFailed);
        case Window(c) =>
          if FromRead(c, record) {
            r := StageCheckpoint(c, course);
          } else {
            r := FailObservation(PersistenceFailed);
          }
      }
    }

    method AwaitResponse(course: ReceiveCourse) returns (r: Result<(), Error>)
      modifies this
      ensures var t := Await(old(Snapshot()), course); Went(old(Snapshot()), old(history), t.states) && r == t.result
    {
      hide RecoverUnlinked, Read;
      var done;
      done, r := RecoverUnlinkedCheckpoint(course.verdict, course.clock);
      if done {
        return;
      }
      if course.expired {
        return Err(Expired);
      }
      if record.readCount >= 1 {
        return Ok(());
      }
      r := ReadOnce(course);
    }

    method ReceiveResponse(course: ReceiveCourse) returns (r: Result<(), Error>)
      modifies this
      ensures var t := Receive(old(Snapshot()), course); Went(old(Snapshot()), old(history), t.states) && r == t.result
    {
      hide CompleteCursor, Await, UnsafeFailure;
      if !course.current {
        return Err(NotPermitted);
      }
      if UnsafeFailure(record) {
        return Ok(());
      }
      var done;
      done, r := CompletePendingCursor(course.clock);
      if done {
        return;
      }
      if Terminal(record.state) {
        return Ok(());
      }
      if record.state.Sent? {
        if !approval.Confirmed? {
          return Err(NotConfirmed);
        }
        Save(record.(state := AwaitingResponse));
      } else if !record.state.AwaitingResponse? {
        return Err(NotAwaiting);
      }
      r := AwaitResponse(course);
    }

    // ------------------------------------------------------------- timeout, proposal

    method ConcludeTimeout(expired: bool, clock: bool) returns (r: Result<(), Error>)
      modifies this
      ensures var t := Conclude(old(Snapshot()), expired, clock); Went(old(Snapshot()), old(history), t.states) && r == t.result
    {
      hide CompleteCursor;
      if !record.state.AwaitingResponse? || record.readCount != 1 || !expired {
        return Err(DeadlineNotElapsed);
      }
      if record.linked.None? || record.readFailure.Some? {
        Save(record.(state := AmbiguousDelivery,
                     readFailure := if record.readFailure.Some? then record.readFailure else Some(PersistenceFailed)));
        return Ok(());
      }
      var done;
      done, r := CompletePendingCursor(clock);
      if r.Err? {
        return;
      }
      Save(record.(state := NoResponse));
      r := Ok(());
    }

    method TimeoutBootstrap(current: bool, expired: bool, clock: bool, verdict: Verdict) returns (r: Result<(), Error>)
      modifies this
      ensures var t := Timeout(old(Snapshot()), current, expired, clock, verdict);
        Went(old(Snapshot()), old(history), t.states) && r == t.result
    {
      hide RecoverUnlinked, Conclude;
      if !current {
        return Err(NotPermitted);
      }
      if Terminal(record.state) {
        return Ok(());
      }
      if record.state.AwaitingResponse? {
        var done;
        done, r := RecoverUnlinkedCheckpoint(verdict, clock);
        if r.Err? {
          return;
        }
        if done && Terminal(record.state) {
          return Ok(());
        }
      }
      r := ConcludeTimeout(expired, clock);
    }

    method ProposePromotion(current: bool, clock: bool) returns (r: Result<(), Error>)
      modifies this
      ensures var t := Propose(old(Snapshot()), current, clock); Went(old(Snapshot()), old(history), t.states) && r == t.result
    {
      hide CompleteCursor;
      if !current || !record.state.AcceptedEvidence? {
        return Err(NotAccepted);
      }
      var done;
      done, r := CompletePendingCursor(clock);
      if r.Err? {
        return;
      }
      if final.None? || |final.value.matching| != 1 {
        return Err(EvidenceChanged);
      }
      if proposalFile && record.proposal {
        return Ok(());
      }
      if !proposalFile {
        proposalFile := true;
        history := history + [Snapshot()];
      }
      Save(record.(proposal := true));
      r := Ok(());
    }
  }
}
