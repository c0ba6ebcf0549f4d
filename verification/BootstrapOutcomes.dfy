/** Why a bootstrap record says what it says: every reply, window and verdict in it was met by some run. */
module BootstrapOutcomes {
  import opened Wrappers
  import opened Bootstrap
  import opened BootstrapSafety

  // ------------------------------------------------------------ what one verdict leads to

  /** A checked response as recorded: accepted only when it was, declined or mismatched otherwise, spent unless unverifiable. */
  predicate Reflects(r: Record, c: Checkpoint, v: Verdict)
    requires c.matching != []
  {
    && (r.state.AcceptedEvidence? <==> v.Accepts?)
    && (r.state.Rejected? <==> v.Declines? || v.Mismatches?)
    && (r.state.InvalidResponse? <==> v.Unverifiable?)
    && (r.challengeUsed <==> !v.Unverifiable?) && (r.envelope <==> !v.Unverifiable?)
    && r.response.Some?
    && var x := r.response.value;
    && x.at == c.matching[0]
    && (x.verified <==> !v.Unverifiable?)
    && (x.accepted == Some(false) <==> v.Declines?) && (x.accepted == Some(true) <==> v.Accepts? || v.Mismatches?)
    && (x.failure.None? <==> v.Accepts?)
    && (x.failure == Some(TargetDeclined) <==> v.Declines?) && (x.failure == Some(SchemaMismatch) <==> v.Mismatches?)
    && (x.failure == Some(Unverified) <==> v.Unverifiable?)
  }

  /** An unsafe window as recorded: the first thing wrong with it, and nothing believed. */
  predicate Refuses(r: Record, c: Checkpoint, generation: Option<nat>) {
    && r.state.InvalidResponse? && r.response.Some? && !r.response.value.verified && r.response.value.accepted.None?
    && var code := r.response.value.failure;
    var same, free, order, whole := SameGeneration(c, generation), GapFree(c), InOrder(c), CompleteWindow(c);
    && (code == Some(GenerationMismatch) <==> !same)
    && (code == Some(RetentionGap) <==> same && !free)
    && (code == Some(SequenceRegression) <==> same && free && !order)
    && (code == Some(IncompleteWindow) <==> same && free && order && !whole)
    && (code == Some(ConflictingResponse) <==> same && free && order && whole && (c.overflow || |c.matching| > 1))
  }

  /**
   One usable window, processed without interruption: an unsafe one is refused and moves nothing, an empty one
   only moves the cursor, and one message ends the bootstrap exactly as checking it turned out.
   */
  lemma WindowDecides(d: Disk, c: Checkpoint, v: Verdict)
    requires Usable(c, d.record) && d.record.response.None? && !d.record.challengeUsed && !d.record.envelope
    requires d.record.state.AwaitingResponse? && d.record.acknowledged == d.record.since
    ensures var t := Process(d, c, v, true); var q := Last(d, t.states).record;
      && t.result.Ok? && q.linked == Some(c) && q.readFailure.None?
      && (!Safe(c, d.record.generation) ==> Refuses(q, c, d.record.generation) && q.acknowledged == d.record.acknowledged && !q.challengeUsed)
      && (Safe(c, d.record.generation) ==> q.acknowledged == NextCursor(c))
      && (Safe(c, d.record.generation) && c.matching == [] ==> q.state.AwaitingResponse? && q.response.None? && !q.challengeUsed)
      && (Safe(c, d.record.generation) && c.matching != [] ==> Reflects(q, c, v) && q.response.value.acknowledged)
  {
    if Safe(c, d.record.generation) {
      SafeMovesForward(c, d.record.generation);
    }
    hide InOrder;
  }

  /** Everything that has to go right before the request may leave. */
  predicate Leaves(d: Disk, c: SendCourse) {
    && c.current && d.record.state.Authorized? && !c.expired && c.ready && d.approval.Approved?
    && !c.expiredConsumed && c.signed && c.bound && !c.expiredIntent
  }

  /** What the reply alone decides, as far as the outcome can be saved. */
  predicate Decides(d: Disk, c: SendCourse, e: Disk) {
    var q, receipt := e.record, Positive(Some(c.reply));
    && (q.state.AwaitingResponse? <==> receipt && c.outcomeSaved && c.recordsSaved >= 3)
    && (q.state.Rejected? <==> c.reply.Refused?)
    && (q.state.AwaitingResponse? || q.state.Rejected? || q.state.AmbiguousDelivery?)
    && q.sentSeq == (if receipt then Some(c.reply.at) else None)
    && (receipt ==> q.since == q.acknowledged == c.reply.at)
    && (receipt ==> q.generation == if c.reply.generation.Some? then c.reply.generation else d.record.generation)
    && (c.outcomeSaved ==> (e.approval.FailedResult? <==> c.reply.Refused?))
    && (c.outcomeSaved && receipt && c.recordsSaved > 0 ==> e.approval.Confirmed?)
    && (c.outcomeSaved && !receipt && !c.reply.Refused? ==> e.approval.AmbiguousResult?)
    && e.posts == d.posts
  }

  lemma SettlingDecides(d: Disk, c: SendCourse)
    requires d.record.sentSeq.None? && d.approval.Executing?
    ensures Decides(d, c, Last(d, SettleSend(d, c).states))
  {
    if Positive(Some(c.reply)) {
      hide EndSend;
      var r := Received(d, c);
      EndSendLast(d, AmbiguousResult, c.outcomeSaved, r.(state := AmbiguousDelivery));
      EndSendLast(Put(d, r), AmbiguousResult, c.doubtSaved, r.(state := AmbiguousDelivery));
    } else {
      hide EndSend;
      EndSendLast(d, FailedResult, c.outcomeSaved, d.record.(state := Rejected));
      EndSendLast(d, AmbiguousResult, c.outcomeSaved, d.record.(state := AmbiguousDelivery));
    }
  }

  lemma EndSendLast(d: Disk, a: Approval, saved: bool, r: Record)
    ensures EndSend(d, a, saved, r) != []
    ensures Last(d, EndSend(d, a, saved, r)) == Put(if saved then d.(approval := a) else d, r)
  {
  }

  /** The record after a receipt, before anything else is decided. */
  function Received(d: Disk, c: SendCourse): Record
    requires c.reply.Receipt?
  {
    d.record.(sentSeq := Some(c.reply.at), since := c.reply.at, acknowledged := c.reply.at,
              generation := if c.reply.generation.Some? then c.reply.generation else d.record.generation)
  }

  /**
   One send without a crash: the request leaves exactly when everything allows it, and then the reply decides: a
   receipt waits for its answer from its own position on, a refusal ends the bootstrap, anything else is ambiguous.
   */
  lemma ReplyDecides(d: Disk, c: SendCourse)
    requires d.posts == 0 && d.record.sentSeq.None?
    ensures var e := Last(d, Send(d, c).states); var q := e.record;
      && (e.posts == 1 <==> Leaves(d, c)) && e.posts <= 1
      && (d.record.state.Authorized? && c.current && !Leaves(d, c) ==> q.state.Rejected? && q.sentSeq.None?)
      && (!c.current || !d.record.state.Authorized? ==> Send(d, c) == Trace([], Err(NotPermitted)))
      && (Leaves(d, c) ==> Decides(d.(posts := 1), c, e))
  {
    hide Decides, SettleSend, EndSend;
    var d0 := d.(approval := Executing);
    var d1 := Put(d0, d0.record.(state := Sending, sendCount := 1));
    var d2 := d1.(posts := 1);
    EndSendLast(d0, FailedResult, c.outcomeSaved, d0.record.(state := Rejected));
    EndSendLast(d0, AmbiguousResult, c.outcomeSaved, d0.record.(state := Rejected));
    EndSendLast(d1, AmbiguousResult, c.outcomeSaved, d1.record.(state := Rejected, sendCount := 0));
    SettlingDecides(d2, c);
    if Leaves(d, c) {
      var rest := SettleSend(d2, c).states;
      assert Send(d, c).states == [d0] + ([d1, d2] + rest);
      SettleSendWrites(d2, c);
      DecidesApart(d2, d.(posts := 1), c, Last(d2, rest));
    }
  }

  lemma SettleSendWrites(d: Disk, c: SendCourse)
    ensures SettleSend(d, c).states != []
  {
  }

  lemma DecidesApart(a: Disk, b: Disk, c: SendCourse, e: Disk)
    requires Decides(a, c, e) && a.posts == b.posts && a.record.generation == b.record.generation
    ensures Decides(b, c, e)
  {
  }

  /** One read: what came back and how far it was stored, or which part failed. */
  lemma ReadDecides(d: Disk, course: ReceiveCourse)
    requires d.record.readCount == 0 && d.final.None? && d.candidate.None?
    ensures var e := Last(d, Read(d, course).states); var stored := course.window.Window? && FromRead(course.window.checkpoint, d.record);
      && e.gets == d.gets + 1 && e.record.readCount == 1
      && (course.window.Failed? ==> e.record.readFailure == Some(TransportFailed))
      && (!course.window.Failed? && !(stored && course.staged >= 4) ==> e.record.readFailure == Some(PersistenceFailed))
      && (e.final.Some? <==> stored && course.staged >= 3) && (e.final.Some? ==> e.final == Some(course.window.checkpoint))
      && (stored && course.staged == 2 ==> e.candidate == Some(Whole(course.window.checkpoint)))
      && (e.final.None? || course.staged == 3 ==> e.record.linked == d.record.linked)
  {
    hide Process;
    if course.window.Window? && FromRead(course.window.checkpoint, d.record) && course.staged >= 4 {
      var d2 := Put(d, d.record.(readCount := 1)).(gets := d.gets + 1);
      ProcessKeepsFiles(d2.(final := Some(course.window.checkpoint)), course.window.checkpoint, course.verdict, course.clock);
    }
  }

  lemma ProcessKeepsFiles(d: Disk, c: Checkpoint, v: Verdict, clock: bool)
    ensures var e := Last(d, Process(d, c, v, clock).states);
      e.final == d.final && e.candidate == d.candidate && e.gets == d.gets && e.record.readCount == d.record.readCount
  {
    hide Safe, Usable, UnsafeCode;
  }

  /** The one GET leaves exactly when the send was confirmed, nothing was read or staged, and the deadline is ahead. */
  lemma GetLeavesIff(d: Disk, course: ReceiveCourse)
    requires Inv(d)
    ensures Last(d, Receive(d, course).states).gets == d.gets + 1 <==>
      && course.current && !course.expired && d.record.readCount == 0
      && (d.record.state.Sent? || d.record.state.AwaitingResponse?) && d.approval.Confirmed?
    ensures d.gets <= Last(d, Receive(d, course).states).gets <= d.gets + 1
  {
    AwaitingIsRead(d);
    hide Inv, Read, Safe, FromRead, Process, UnsafeFailure, Usable;
    var waiting := if d.record.state.Sent? then Put(d, d.record.(state := AwaitingResponse)) else d;
    CompleteCursorGets(d, course.clock);
    if d.record.state.Sent? || d.record.state.AwaitingResponse? {
      RecoverGets(waiting, course.verdict, course.clock);
      ReadGets(waiting, course);
    }
  }

  lemma AwaitingIsRead(d: Disk)
    requires Inv(d)
    ensures d.record.state.Sent? || d.record.state.AwaitingResponse? ==> d.approval.Confirmed? && !UnsafeFailure(d.record)
    ensures d.record.readCount == 0 ==> d.record.linked.None? && d.final.None? && d.candidate.None?
    ensures d.record.state.Sent? ==> d.record.readCount == 0
  {
    hide Safe, FromRead;
  }

  lemma CompleteCursorGets(d: Disk, clock: bool)
    ensures CompleteCursor(d, clock).Some? ==> Last(d, CompleteCursor(d, clock).value.states).gets == d.gets && d.record.linked.Some?
  {
    hide Usable;
  }

  lemma RecoverGets(d: Disk, v: Verdict, clock: bool)
    ensures RecoverUnlinked(d, v, clock).Some? ==>
      Last(d, RecoverUnlinked(d, v, clock).value.states).gets == d.gets && (d.final.Some? || d.candidate.Some?)
  {
    hide Usable, Process;
    if d.record.linked.None? && Examine(d, clock).Evidence? {
      var c := Examine(d, clock).value;
      ProcessKeepsFiles(if d.final.Some? then d else d.(final := Some(c), candidate := None), c, v, clock);
    }
  }

  lemma ReadGets(d: Disk, course: ReceiveCourse)
    ensures Last(d, Read(d, course).states).gets == d.gets + 1 && Read(d, course).states != []
  {
    hide Process;
    if course.window.Window? {
      var d2 := Put(d, d.record.(readCount := 1)).(gets := d.gets + 1);
      ProcessKeepsFiles(d2.(final := Some(course.window.checkpoint)), course.window.checkpoint, course.verdict, course.clock);
    }
  }

  /** Only a prepared record whose action is requested, or was just granted, becomes authorized. */
  lemma AuthorizationDecides(d: Disk, current: bool)
    ensures var t := Authorize(d, current); var e := Last(d, t.states);
      && (t.result.Ok? <==> current && d.record.state.Prepared? && (d.approval.Requested? || d.approval.Approved?))
      && (t.result.Ok? ==> e == Put(d, d.record.(state := Authorized)).(approval := Approved))
      && (t.result.Err? ==> t.states == [])
  {
  }

  /** A proposal is written exactly for accepted evidence whose cursor can be completed. */
  lemma ProposalDecides(d: Disk, current: bool, clock: bool)
    requires Inv(d)
    ensures var t := Propose(d, current, clock); var e := Last(d, t.states);
      && (t.result.Ok? <==> current && d.record.state.AcceptedEvidence? && clock)
      && (t.result.Ok? ==> e.proposalFile && e.record.proposal && e.record.acknowledged == NextCursor(d.record.linked.value))
      && (t.result.Err? ==> t.states == [])
  {
    if d.record.state.AcceptedEvidence? {
      AcceptedIsLinked(d);
      LinkedIsSafe(d);
      LinkedIsUsable(d);
    }
    hide Safe, Usable, FromRead, Inv;
  }

  lemma LinkedIsUsable(d: Disk)
    requires Inv(d) && d.record.linked.Some?
    ensures Usable(d.record.linked.value, d.record)
  {
    hide Safe;
  }

  /** After the deadline of a spent read: silence is concluded exactly from linked evidence, anything less is ambiguous. */
  lemma TimeoutDecides(d: Disk, clock: bool)
    requires Inv(d) && d.record.state.AwaitingResponse? && d.record.readCount == 1
    ensures var t := Conclude(d, true, clock); var q := Last(d, t.states).record;
      && (t.result.Ok? ==> q.state.NoResponse? || q.state.AmbiguousDelivery?)
      && (q.state.AmbiguousDelivery? <==> d.record.linked.None? || d.record.readFailure.Some?)
      && (t.result.Ok? && d.record.linked.Some? ==> q.state.NoResponse? && q.acknowledged == NextCursor(d.record.linked.value))
      && (t.result.Err? <==> d.record.linked.Some? && !clock) && (t.result.Err? ==> t.states == [])
  {
    if d.record.linked.Some? {
      AwaitingIsNotUnsafe(d);
      LinkedIsSafe(d);
      AwaitingIsSilent(d);
    }
    hide Safe, FromRead;
  }

  lemma AwaitingIsSilent(d: Disk)
    requires Inv(d) && d.record.state.AwaitingResponse? && d.record.linked.Some?
    ensures d.record.response.None? && d.record.readFailure.None?
  {
    SafeHasFew(d.record.linked.value, d.record.generation);
    hide Safe, FromRead;
  }

  // ------------------------------------------------------------------ one write, explained

  /** What checking a message found in the course of an operation. */
  function VerdictOf(op: Operation): Option<Verdict> {
    match op
    case DoReceive(c) => Some(c.verdict)
    case DoTimeout(_, _, _, v) => Some(v)
    case _ => None
  }

  function ReplyOf(op: Operation): Option<Reply> {
    if op.DoSend? then Some(op.send.reply) else None
  }

  predicate Positive(reply: Option<Reply>) {
    reply.Some? && reply.value.Receipt? && reply.value.at >= 1
  }

  ghost predicate SendExplained(op: Operation, a: Disk, b: Disk) {
    var r, q, reply := a.record, b.record, ReplyOf(op);
    && (q.sentSeq != r.sentSeq ==>
          && a.posts == 1 && Positive(reply) && q.sentSeq == Some(reply.value.at) && q.since == q.acknowledged == reply.value.at
          && q.generation == if reply.value.generation.Some? then reply.value.generation else r.generation)
    && (q.generation != r.generation ==> q.sentSeq != r.sentSeq)
    && (b.posts != a.posts ==> b.approval == a.approval)
    && (b.approval != a.approval ==>
          && (b.approval.Approved? ==> op.DoAuthorize?)
          && (b.approval.Executing? || b.approval.Confirmed? || b.approval.FailedResult? || b.approval.AmbiguousResult? ==> op.DoSend?)
          && (b.approval.Confirmed? ==> a.posts == 1 && Positive(reply) && r.sentSeq == Some(reply.value.at))
          && (a.posts == 1 ==> (b.approval.FailedResult? <==> reply == Some(Refused))))
    && (q.state != r.state ==>
          && (q.state.Sending? || q.state.Sent? ==> op.DoSend?)
          && (q.state.Authorized? ==> op.DoAuthorize?)
          && (r.state.Sending? && a.posts == 1 ==> (q.state.Rejected? <==> reply == Some(Refused)))
          && (r.state.Sending? ==> !q.state.AcceptedEvidence? && !q.state.InvalidResponse? && !q.state.NoResponse?))
  }

  ghost predicate ReadExplained(op: Operation, a: Disk, b: Disk) {
    var r, q := a.record, b.record;
    && (b.candidate != a.candidate && b.candidate.Some? && b.candidate.value.Whole? ==>
          op.DoReceive? && op.receive.window == Window(b.candidate.value.value) && FromRead(b.candidate.value.value, r))
    && (b.final != a.final ==> b.final.Some? && a.candidate == Some(Whole(b.final.value)))
    && (q.readFailure != r.readFailure && q.readFailure == Some(TransportFailed) ==> op.DoReceive? && op.receive.window.Failed?)
    && (q.linked != r.linked ==>
          && q.linked.Some? && q.linked == a.final && VerdictOf(op).Some?
          && var c := q.linked.value;
          && (!Safe(c, q.generation) ==> Refuses(q, c, q.generation))
          && (Safe(c, q.generation) && c.matching != [] ==> Reflects(q, c, VerdictOf(op).value)))
    && (q.state != r.state ==>
          && (q.state.NoResponse? ==> op.DoTimeout? && op.expired)
          && (q.state.AcceptedEvidence? ==> q.linked != r.linked)
          && (q.state.InvalidResponse? ==> q.linked != r.linked)
          && (q.state.AmbiguousDelivery? && r.state.AwaitingResponse? ==> q.readFailure.Some?))
    && (q.proposal != r.proposal || b.proposalFile != a.proposalFile ==> op.DoPropose?)
  }

  ghost predicate Explains(op: Operation, a: Disk, b: Disk) {
    SendExplained(op, a, b) && ReadExplained(op, a, b)
  }

  ghost predicate Explained(op: Operation, d: Disk, states: seq<Disk>) {
    forall k | 0 <= k < |states| :: Explains(op, Before(d, states, k), states[k])
  }

  lemma ExplainedJoins(op: Operation, d: Disk, a: seq<Disk>, b: seq<Disk>)
    requires Explained(op, d, a) && Explained(op, Last(d, a), b)
    ensures Explained(op, d, a + b)
  {
    hide Explains;
    forall k | 0 <= k < |a + b|
      ensures Explains(op, Before(d, a + b, k), (a + b)[k])
    {
      if k < |a| {
        assert Before(d, a + b, k) == Before(d, a, k);
      } else {
        assert Before(d, a + b, k) == Before(Last(d, a), b, k - |a|);
      }
    }
  }

  lemma AuthorizeExplained(d: Disk, current: bool)
    requires Inv(d)
    ensures Explained(DoAuthorize(current), d, Authorize(d, current).states)
  {
    hide Safe, UnsafeFailure, FromRead;
  }

  lemma EndSendExplained(op: Operation, d: Disk, a: Approval, saved: bool, r: Record)
    requires saved ==> Explains(op, d, d.(approval := a))
    requires var e := if saved then d.(approval := a) else d; Explains(op, e, Put(e, r))
    ensures Explained(op, d, EndSend(d, a, saved, r))
  {
    hide Explains;
    var first := SetApproval(d, a, saved);
    ExplainedJoins(op, d, first, [Put(Last(d, first), r)]);
  }

  lemma ConfirmedExplained(d: Disk, c: SendCourse, r: Record)
    requires d.record == r && r.state.Sending? && d.posts == 1 && d.approval.Executing?
    requires Positive(Some(c.reply)) && r.sentSeq == Some(c.reply.at)
    ensures Explained(DoSend(c), d, ConfirmedStates(d, r, c.recordsSaved))
  {
    hide Safe, FromRead, Reflects, Refuses;
    var op := DoSend(c);
    var d2 := d.(approval := Confirmed);
    var sent := if c.recordsSaved >= 2 then [Put(d2, r.(state := Sent))] else [];
    var last := [Put(d2, r.(state := if c.recordsSaved >= 3 then AwaitingResponse else AmbiguousDelivery))];
    assert Explained(op, d, [d2]) && Explained(op, d2, sent) && Explained(op, Last(d2, sent), last);
    ExplainedJoins(op, d, [d2], sent);
    ExplainedJoins(op, d, [d2] + sent, last);
  }

  lemma ReceiptExplained(d: Disk, c: SendCourse)
    requires d.record.state.Sending? && d.posts == 1 && d.approval.Executing? && d.record.sentSeq.None?
    requires Positive(Some(c.reply))
    ensures Explained(DoSend(c), d, SettleSend(d, c).states)
  {
    hide Safe, FromRead, Reflects, Refuses, EndSend, ConfirmedStates;
    var op := DoSend(c);
    var r := Received(d, c);
    var d1 := Put(d, r);
    assert Explained(op, d, [d1]);
    EndSendExplained(op, d, AmbiguousResult, c.outcomeSaved, r.(state := AmbiguousDelivery));
    EndSendExplained(op, d1, AmbiguousResult, c.doubtSaved, r.(state := AmbiguousDelivery));
    ExplainedJoins(op, d, [d1], EndSend(d1, AmbiguousResult, c.doubtSaved, r.(state := AmbiguousDelivery)));
    ConfirmedExplained(d1, c, r);
    ExplainedJoins(op, d, [d1], ConfirmedStates(d1, r, c.recordsSaved));
  }

  lemma SettleSendExplained(d: Disk, c: SendCourse)
    requires d.record.state.Sending? && d.posts == 1 && d.approval.Executing? && d.record.sentSeq.None?
    ensures Explained(DoSend(c), d, SettleSend(d, c).states)
  {
    if Positive(Some(c.reply)) {
      ReceiptExplained(d, c);
    } else {
      hide Safe, FromRead, Reflects, Refuses, EndSend;
      if c.reply.Refused? {
        EndSendExplained(DoSend(c), d, FailedResult, c.outcomeSaved, d.record.(state := Rejected));
      } else {
        EndSendExplained(DoSend(c), d, AmbiguousResult, c.outcomeSaved, d.record.(state := AmbiguousDelivery));
      }
    }
  }

  lemma SendExplainedAll(d: Disk, c: SendCourse)
    requires Inv(d)
    ensures Explained(DoSend(c), d, Send(d, c).states)
  {
    hide Safe, FromRead, Reflects, Refuses, SettleSend, UnsafeFailure;
    if c.current && d.record.state.Authorized? && !c.expired && c.ready && d.approval.Approved? {
      var d0 := d.(approval := Executing);
      SendSpentExplained(d0, c);
      ExplainedJoins(DoSend(c), d, [d0], SendSpent(d0, c).states);
    }
  }

  lemma SendSpentExplained(d: Disk, c: SendCourse)
    requires d.record.state.Authorized? && d.posts == 0 && d.approval.Executing? && d.record.sentSeq.None?
    ensures Explained(DoSend(c), d, SendSpent(d, c).states)
  {
    hide Safe, FromRead, Reflects, Refuses, SettleSend;
    if !c.expiredConsumed && c.signed && c.bound && !c.expiredIntent {
      var d1 := Put(d, d.record.(state := Sending, sendCount := 1));
      var d2 := d1.(posts := d1.posts + 1);
      SettleSendExplained(d2, c);
      ExplainedJoins(DoSend(c), d, [d1, d2], SettleSend(d2, c).states);
    }
  }

  /** Evidence that is about to be linked. */
  ghost predicate Unjudged(d: Disk, c: Checkpoint) {
    && d.record.state.AwaitingResponse? && d.record.linked.None? && d.record.response.None?
    && !d.record.challengeUsed && !d.record.envelope && d.final == Some(c)
  }

  lemma AdvanceExplained(op: Operation, d: Disk, c: Checkpoint)
    ensures Explained(op, d, Advance(d, c).states)
  {
    hide Safe, FromRead, Reflects, Refuses;
  }

  lemma RefusalExplained(op: Operation, d: Disk, c: Checkpoint)
    requires Unjudged(d, c) && VerdictOf(op).Some? && !Safe(c, d.record.generation)
    ensures var response := Response(FirstOf(c), false, None, Some(UnsafeCode(c, d.record.generation)), false);
      Explains(op, d, Put(d, Linked(d.record, c).(state := InvalidResponse, response := Some(response))))
  {
    hide FromRead, InOrder, Reflects;
  }

  lemma LinkExplained(op: Operation, d: Disk, c: Checkpoint)
    requires Unjudged(d, c) && VerdictOf(op).Some? && Safe(c, d.record.generation)
    ensures c.matching == [] ==> Explains(op, d, Put(d, Linked(d.record, c)))
    ensures c.matching != [] ==> |c.matching| == 1 && Explains(op, d, Put(d, Judged(d.record, c, VerdictOf(op).value)))
  {
    SafeHasFew(c, d.record.generation);
    hide FromRead, Safe, Refuses;
  }

  lemma ProcessExplained(op: Operation, d: Disk, c: Checkpoint, v: Verdict, clock: bool)
    requires Unjudged(d, c) && VerdictOf(op) == Some(v)
    ensures Explained(op, d, Process(d, c, v, clock).states)
  {
    hide Explains, Safe, Advance, Usable, Linked, Judged, FirstOf, UnsafeCode;
    if Safe(c, d.record.generation) {
      LinkExplained(op, d, c);
      var d1 := if c.matching == [] then Put(d, Linked(d.record, c)) else Put(d, Judged(d.record, c, v));
      AdvanceExplained(op, d1, c);
      ExplainedJoins(op, d, [d1], Advance(d1, c).states);
    } else {
      RefusalExplained(op, d, c);
    }
  }

  lemma InvIsUnjudged(d: Disk)
    requires Inv(d) && d.record.state.AwaitingResponse? && d.record.linked.None?
    ensures d.record.response.None? && !d.record.challengeUsed && !d.record.envelope
  {
    hide Safe, FromRead, UnsafeFailure;
  }

  lemma CompleteCursorExplained(op: Operation, d: Disk, clock: bool)
    ensures CompleteCursor(d, clock).Some? ==>
      && Explained(op, d, CompleteCursor(d, clock).value.states)
      && Last(d, CompleteCursor(d, clock).value.states).record.state == d.record.state
  {
    hide Safe, FromRead, Reflects, Refuses, Usable;
  }

  lemma CandidateIsExamined(d: Disk, clock: bool)
    requires Examine(d, clock).Evidence? && d.final.None?
    ensures d.candidate == Some(Whole(Examine(d, clock).value))
  {
    hide Usable;
    match d.candidate.value
    case Torn =>
    case Whole(_) =>
  }

  lemma RecoverExplained(op: Operation, d: Disk, v: Verdict, clock: bool)
    requires Inv(d) && d.record.state.AwaitingResponse? && VerdictOf(op) == Some(v)
    ensures RecoverUnlinked(d, v, clock).Some? ==> Explained(op, d, RecoverUnlinked(d, v, clock).value.states)
  {
    if d.record.linked.None? {
      InvIsUnjudged(d);
      hide Inv, Safe, FromRead, Reflects, Refuses, Usable, Process;
      if Examine(d, clock).Evidence? {
        var c := Examine(d, clock).value;
        var d1 := if d.final.Some? then d else d.(final := Some(c), candidate := None);
        ProcessExplained(op, d1, c, v, clock);
        if d.final.None? {
          CandidateIsExamined(d, clock);
          assert Explains(op, d, d1);
          ExplainedJoins(op, d, [d1], Process(d1, c, v, clock).states);
        } else {
          assert [] + Process(d1, c, v, clock).states == Process(d1, c, v, clock).states;
        }
      }
    }
  }

  lemma FailReadExplained(course: ReceiveCourse, d: Disk, failure: ReadFailure)
    requires failure.TransportFailed? ==> course.window.Failed?
    ensures Explained(DoReceive(course), d, FailRead(d, failure).states)
  {
    hide Safe, FromRead, Reflects, Refuses;
  }

  lemma StageExplained(d: Disk, c: Checkpoint, course: ReceiveCourse)
    requires d.record.state.AwaitingResponse? && d.record.linked.None? && d.record.response.None?
    requires !d.record.challengeUsed && !d.record.envelope && FromRead(c, d.record) && course.window == Window(c)
    ensures Explained(DoReceive(course), d, Stage(d, c, course).states)
  {
    hide Safe, Reflects, Refuses, Process, FailRead, FromRead;
    var op := DoReceive(course);
    var d1, d2, d3 := d.(candidate := Some(Torn)), d.(candidate := Some(Whole(c))), d.(final := Some(c));
    FailReadExplained(course, d, PersistenceFailed);
    if d.candidate.None? && d.final.None? && course.staged > 0 {
      assert Explained(op, d, [d1]) && Explained(op, d, [d1, d2]) && Explained(op, d, [d1, d2, d3]);
      FailReadExplained(course, d1, PersistenceFailed);
      FailReadExplained(course, d2, PersistenceFailed);
      FailReadExplained(course, d3, PersistenceFailed);
      ProcessExplained(op, d3, c, course.verdict, course.clock);
      ExplainedJoins(op, d, [d1], FailRead(d1, PersistenceFailed).states);
      ExplainedJoins(op, d, [d1, d2], FailRead(d2, PersistenceFailed).states);
      ExplainedJoins(op, d, [d1, d2, d3], FailRead(d3, PersistenceFailed).states);
      ExplainedJoins(op, d, [d1, d2, d3], Process(d3, c, course.verdict, course.clock).states);
    }
  }

  lemma IntentExplained(op: Operation, d: Disk)
    ensures var d1 := Put(d, d.record.(readCount := 1)); Explained(op, d, [d1, d1.(gets := d1.gets + 1)])
  {
    hide Safe, FromRead, Reflects, Refuses;
  }

  lemma AfterGetExplained(d: Disk, course: ReceiveCourse)
    requires d.record.state.AwaitingResponse? && d.record.linked.None? && d.record.response.None?
    requires !d.record.challengeUsed && !d.record.envelope
    ensures Explained(DoReceive(course), d, AfterGet(d, course).states)
  {
    hide Explained, Stage, FailRead, FromRead;
    FailReadExplained(course, d, if course.window.Failed? then TransportFailed else PersistenceFailed);
    if course.window.Window? && FromRead(course.window.checkpoint, d.record) {
      StageExplained(d, course.window.checkpoint, course);
    }
  }

  lemma ReadIsExplained(d: Disk, course: ReceiveCourse)
    requires Inv(d) && d.record.state.AwaitingResponse? && d.record.readCount == 0
    ensures Explained(DoReceive(course), d, Read(d, course).states)
  {
    hide Inv, Explained, Stage, FailRead, FromRead;
    UnreadIsUnlinked(d);
    InvIsUnjudged(d);
    var d1 := Put(d, d.record.(readCount := 1));
    var d2 := d1.(gets := d1.gets + 1);
    IntentExplained(DoReceive(course), d);
    AfterGetExplained(d2, course);
    ExplainedJoins(DoReceive(course), d, [d1, d2], AfterGet(d2, course).states);
  }

  lemma AwaitExplained(d: Disk, course: ReceiveCourse)
    requires Inv(d) && d.record.state.AwaitingResponse?
    ensures Explained(DoReceive(course), d, Await(d, course).states)
  {
    hide Inv, Explains, RecoverUnlinked, Read;
    RecoverExplained(DoReceive(course), d, course.verdict, course.clock);
    if d.record.readCount == 0 {
      ReadIsExplained(d, course);
    }
  }

  lemma ReceiveIsExplained(d: Disk, course: ReceiveCourse)
    requires Inv(d)
    ensures Explained(DoReceive(course), d, Receive(d, course).states)
  {
    hide Inv, Await, CompleteCursor, Safe, FromRead, Reflects, Refuses, UnsafeFailure;
    var op := DoReceive(course);
    CompleteCursorExplained(op, d, course.clock);
    if d.record.state.AwaitingResponse? {
      AwaitExplained(d, course);
    } else if d.record.state.Sent? && d.approval.Confirmed? {
      SentSound(d);
      var d1 := Put(d, d.record.(state := AwaitingResponse));
      AwaitExplained(d1, course);
      ExplainedJoins(op, d, [d1], Await(d1, course).states);
    }
  }

  lemma ConcludeExplained(op: Operation, d: Disk, expired: bool, clock: bool)
    requires op.DoTimeout? && op.expired == expired
    ensures Explained(op, d, Conclude(d, expired, clock).states)
  {
    hide CompleteCursor, Safe, FromRead, Reflects, Refuses;
    CompleteCursorExplained(op, d, clock);
    var pending := CompleteCursor(d, clock);
    var states := if pending.Some? then pending.value.states else [];
    var d1 := Last(d, states);
    if expired && d.record.state.AwaitingResponse? {
      ExplainedJoins(op, d, states, [Put(d1, d1.record.(state := NoResponse))]);
    }
  }

  lemma TimeoutIsExplained(d: Disk, current: bool, expired: bool, clock: bool, v: Verdict)
    requires Inv(d)
    ensures Explained(DoTimeout(current, expired, clock, v), d, Timeout(d, current, expired, clock, v).states)
  {
    hide Inv, RecoverUnlinked, Conclude, Explains;
    var op := DoTimeout(current, expired, clock, v);
    if d.record.state.AwaitingResponse? {
      RecoverExplained(op, d, v, clock);
    }
    var recovered := if d.record.state.AwaitingResponse? then RecoverUnlinked(d, v, clock) else None;
    var states := if recovered.Some? then recovered.value.states else [];
    var d1 := Last(d, states);
    ConcludeExplained(op, d1, expired, clock);
    ExplainedJoins(op, d, states, Conclude(d1, expired, clock).states);
  }

  lemma ProposeIsExplained(d: Disk, current: bool, clock: bool)
    ensures Explained(DoPropose(current, clock), d, Propose(d, current, clock).states)
  {
    hide CompleteCursor, Safe, FromRead, Reflects, Refuses;
    var op := DoPropose(current, clock);
    CompleteCursorExplained(op, d, clock);
    var pending := CompleteCursor(d, clock);
    var states := if pending.Some? then pending.value.states else [];
    var d1 := Last(d, states);
    var d2 := d1.(proposalFile := true);
    var last := [Put(d2, d2.record.(proposal := true))];
    assert Explained(op, d1, [d2] + last) && (d1.proposalFile ==> Explained(op, d1, [] + last));
    ExplainedJoins(op, d, states, [d2] + last);
    if d1.proposalFile {
      ExplainedJoins(op, d, states, [] + last);
    }
  }

  lemma OperationExplained(d: Disk, op: Operation)
    requires Inv(d)
    ensures Explained(op, d, TraceOf(d, op).states)
  {
    hide Inv, Explained, Authorize, Send, Receive, Timeout, Propose;
    match op
    case DoAuthorize(current) => AuthorizeExplained(d, current);
    case DoSend(c) => SendExplainedAll(d, c);
    case DoReceive(c) => ReceiveIsExplained(d, c);
    case DoTimeout(current, expired, clock, v) => TimeoutIsExplained(d, current, expired, clock, v);
    case DoPropose(current, clock) => ProposeIsExplained(d, current, clock);
  }

  // -------------------------------------------------------------- whole runs, explained

  ghost predicate WasAnswered(runs: seq<Attempt>, r: Record) {
    exists k :: 0 <= k < |runs| && Answers(runs[k].operation, r)
  }

  /** The reply of this send is the receipt the record holds. */
  predicate Answers(op: Operation, r: Record) {
    var reply := ReplyOf(op);
    Positive(reply) && r.sentSeq == Some(reply.value.at) && (reply.value.generation.Some? ==> r.generation == reply.value.generation)
  }

  ghost predicate WasRefused(runs: seq<Attempt>) {
    exists k :: 0 <= k < |runs| && ReplyOf(runs[k].operation) == Some(Refused)
  }

  ghost predicate WasRead(runs: seq<Attempt>, c: Checkpoint) {
    exists k :: 0 <= k < |runs| && Reads(runs[k].operation, Window(c))
  }

  predicate Reads(op: Operation, w: Window) {
    op.DoReceive? && op.receive.window == w
  }

  ghost predicate WasJudged(runs: seq<Attempt>, r: Record, c: Checkpoint)
    requires c.matching != []
  {
    exists k :: 0 <= k < |runs| && Judges(runs[k].operation, r, c)
  }

  predicate Judges(op: Operation, r: Record, c: Checkpoint)
    requires c.matching != []
  {
    VerdictOf(op).Some? && Reflects(r, c, VerdictOf(op).value)
  }

  ghost predicate Told(runs: seq<Attempt>, d: Disk) {
    var r := d.record;
    && (r.sentSeq.Some? ==> WasAnswered(runs, r))
    && (d.posts == 1 && d.approval.FailedResult? ==> WasRefused(runs))
    && (d.candidate.Some? && d.candidate.value.Whole? ==> WasRead(runs, d.candidate.value.value))
    && (d.final.Some? ==> WasRead(runs, d.final.value))
    && (r.linked.Some? && !Safe(r.linked.value, r.generation) ==> Refuses(r, r.linked.value, r.generation))
    && (r.linked.Some? && Safe(r.linked.value, r.generation) && r.linked.value.matching != [] ==> WasJudged(runs, r, r.linked.value))
  }

  /** Evidence once linked keeps its meaning: only acknowledgements follow it. */
  lemma MeaningStays(a: Disk, b: Disk)
    requires Inv(a) && Inv(b) && Moves(a, b) && a.record.linked.Some?
    ensures var r, q, c := a.record, b.record, a.record.linked.value;
      && q.linked == r.linked && q.generation == r.generation
      && (!Safe(c, r.generation) && Refuses(r, c, r.generation) ==> Refuses(q, c, r.generation))
      && (Safe(c, r.generation) && c.matching != [] ==> forall v :: Reflects(r, c, v) ==> Reflects(q, c, v))
  {
    LinkedIsSent(a);
    hide Safe, FromRead, InOrder;
  }

  lemma LinkedIsSent(d: Disk)
    requires Inv(d) && d.record.linked.Some?
    ensures d.record.sentSeq.Some?
    ensures !Safe(d.record.linked.value, d.record.generation) ==> Terminal(d.record.state)
    ensures Safe(d.record.linked.value, d.record.generation) && d.record.linked.value.matching != [] ==> Terminal(d.record.state)
    ensures d.record.envelope <==> d.record.challengeUsed
    ensures d.record.challengeUsed <==> d.record.response.Some? && d.record.response.value.verified
  {
    hide Safe, FromRead;
  }

  lemma ReplyStays(runs: seq<Attempt>, a: Disk, b: Disk)
    requires Moves(a, b) && a.record.sentSeq.Some? && WasAnswered(runs, a.record)
    ensures WasAnswered(runs, b.record)
  {
    var k :| 0 <= k < |runs| && Answers(runs[k].operation, a.record);
    assert Answers(runs[k].operation, b.record);
  }

  lemma EvidenceTold(runs: seq<Attempt>, n: nat, a: Disk, b: Disk)
    requires n < |runs| && Told(runs, a) && Explains(runs[n].operation, a, b) && Inv(a) && Inv(b) && Moves(a, b)
    ensures var r := b.record;
      && (r.linked.Some? && !Safe(r.linked.value, r.generation) ==> Refuses(r, r.linked.value, r.generation))
      && (r.linked.Some? && Safe(r.linked.value, r.generation) && r.linked.value.matching != [] ==> WasJudged(runs, r, r.linked.value))
  {
    if a.record.linked.Some? {
      MeaningStays(a, b);
      hide Inv, Safe, Moves, Reflects, Refuses, Explains;
      var c := a.record.linked.value;
      if Safe(c, a.record.generation) && c.matching != [] {
        var k :| 0 <= k < |runs| && Judges(runs[k].operation, a.record, c);
        assert Judges(runs[k].operation, b.record, c);
      }
    } else {
      hide Inv, Safe, Moves, Reflects, Refuses, SendExplained;
      if b.record.linked.Some? && Safe(b.record.linked.value, b.record.generation) && b.record.linked.value.matching != [] {
        assert Judges(runs[n].operation, b.record, b.record.linked.value);
      }
    }
  }

  lemma SendTold(runs: seq<Attempt>, n: nat, a: Disk, b: Disk)
    requires n < |runs| && Told(runs, a) && Explains(runs[n].operation, a, b) && Inv(a) && Inv(b) && Moves(a, b)
    ensures b.record.sentSeq.Some? ==> WasAnswered(runs, b.record)
    ensures b.posts == 1 && b.approval.FailedResult? ==> WasRefused(runs)
  {
    hide Safe, ReadExplained, FromRead, Reflects, Refuses;
    if a.record.sentSeq.Some? {
      ReplyStays(runs, a, b);
    } else if b.record.sentSeq.Some? {
      assert Answers(runs[n].operation, b.record);
    }
    if b.posts == 1 && b.approval.FailedResult? && !(a.posts == 1 && a.approval.FailedResult?) {
      assert ReplyOf(runs[n].operation) == Some(Refused);
    }
  }

  lemma FilesTold(runs: seq<Attempt>, n: nat, a: Disk, b: Disk)
    requires n < |runs| && Told(runs, a) && Explains(runs[n].operation, a, b)
    ensures b.candidate.Some? && b.candidate.value.Whole? ==> WasRead(runs, b.candidate.value.value)
    ensures b.final.Some? ==> WasRead(runs, b.final.value)
  {
    hide Safe, SendExplained, FromRead, Reflects, Refuses;
    if b.candidate != a.candidate && b.candidate.Some? && b.candidate.value.Whole? {
      assert Reads(runs[n].operation, Window(b.candidate.value.value));
    }
  }

  lemma {:induction false} StatesTold(runs: seq<Attempt>, n: nat, d: Disk, states: seq<Disk>)
    requires n < |runs| && Told(runs, d) && Inv(d) && Explained(runs[n].operation, d, states) && Sound(d, states)
    ensures Told(runs, Last(d, states))
    decreases |states|
  {
    hide Inv, Moves, Explains, Told;
    if states != [] {
      var m := |states| - 1;
      var front := states[..m];
      forall k | 0 <= k < m
        ensures Inv(front[k]) && Moves(Before(d, front, k), front[k]) && Explains(runs[n].operation, Before(d, front, k), front[k])
      {
        assert Before(d, front, k) == Before(d, states, k);
      }
      StatesTold(runs, n, d, front);
      assert Before(d, states, m) == Last(d, front);
      StepTold(runs, n, Last(d, front), states[m]);
    }
  }

  lemma StepTold(runs: seq<Attempt>, n: nat, a: Disk, b: Disk)
    requires n < |runs| && Told(runs, a) && Explains(runs[n].operation, a, b) && Inv(a) && Inv(b) && Moves(a, b)
    ensures Told(runs, b)
  {
    EvidenceTold(runs, n, a, b);
    SendTold(runs, n, a, b);
    FilesTold(runs, n, a, b);
    hide Inv, Moves, Explains, Safe, Refuses, WasAnswered, WasRefused, WasRead, WasJudged;
  }

  lemma MoreRunsTold(runs: seq<Attempt>, a: Attempt, d: Disk)
    requires Told(runs, d)
    ensures Told(runs + [a], d)
  {
    hide Safe, Refuses, Answers, Reads, Judges, ReplyOf;
    var all := runs + [a];
    var r := d.record;
    assert forall k | 0 <= k < |runs| :: all[k] == runs[k];
    if r.sentSeq.Some? {
      var k :| 0 <= k < |runs| && Answers(runs[k].operation, r);
      assert Answers(all[k].operation, r);
    }
    if d.posts == 1 && d.approval.FailedResult? {
      var k :| 0 <= k < |runs| && ReplyOf(runs[k].operation) == Some(Refused);
      assert ReplyOf(all[k].operation) == Some(Refused);
    }
    if d.candidate.Some? && d.candidate.value.Whole? {
      var k :| 0 <= k < |runs| && Reads(runs[k].operation, Window(d.candidate.value.value));
      assert Reads(all[k].operation, Window(d.candidate.value.value));
    }
    if d.final.Some? {
      var k :| 0 <= k < |runs| && Reads(runs[k].operation, Window(d.final.value));
      assert Reads(all[k].operation, Window(d.final.value));
    }
    if r.linked.Some? && Safe(r.linked.value, r.generation) && r.linked.value.matching != [] {
      var k :| 0 <= k < |runs| && Judges(runs[k].operation, r, r.linked.value);
      assert Judges(all[k].operation, r, r.linked.value);
    }
  }

  lemma FreshTold(since: nat, generation: Option<nat>)
    ensures Told([], Fresh(since, generation))
  {
  }

  lemma {:induction false} ToldAfterAll(since: nat, generation: Option<nat>, runs: seq<Attempt>)
    ensures Told(runs, AfterAll(Fresh(since, generation), runs))
    decreases |runs|
  {
    hide Inv, Told, After, Explains, Moves, TraceOf;
    var d0 := Fresh(since, generation);
    FreshTold(since, generation);
    if runs != [] {
      var front, a := runs[..|runs| - 1], runs[|runs| - 1];
      var d := AfterAll(d0, front);
      ToldAfterAll(since, generation, front);
      FreshInv(since, generation);
      InvAfterAll(d0, front);
      MoreRunsTold(front, a, d);
      assert front + [a] == runs;
      AttemptTold(runs, |runs| - 1, d);
    }
  }

  lemma AttemptTold(runs: seq<Attempt>, n: nat, d: Disk)
    requires n < |runs| && Told(runs, d) && Inv(d)
    ensures Told(runs, After(d, runs[n]))
  {
    hide Inv, Told, Explains, Moves, TraceOf;
    var a := runs[n];
    OperationSound(d, a.operation);
    OperationExplained(d, a.operation);
    var states := TraceOf(d, a.operation).states;
    var done := if a.cut <= |states| then states[..a.cut] else states;
    forall k | 0 <= k < |done|
      ensures Inv(done[k]) && Moves(Before(d, done, k), done[k]) && Explains(a.operation, Before(d, done, k), done[k])
    {
      assert Before(d, done, k) == Before(d, states, k);
    }
    StatesTold(runs, n, d, done);
  }

  /**
   Accepted evidence was checked and accepted: some run linked a window that was really read, with one message,
   whose check in some run said so; it was sent at the position in a receipt of the one post.
   */
  lemma {:induction false} AcceptanceWasChecked(since: nat, generation: Option<nat>, runs: seq<Attempt>)
    requires AfterAll(Fresh(since, generation), runs).record.state.AcceptedEvidence?
    ensures var d := AfterAll(Fresh(since, generation), runs);
      && d.record.linked.Some? && |d.record.linked.value.matching| == 1 && Safe(d.record.linked.value, d.record.generation)
      && WasRead(runs, d.record.linked.value) && WasAnswered(runs, d.record)
      && exists k :: 0 <= k < |runs| && VerdictOf(runs[k].operation) == Some(Accepts)
  {
    var d0 := Fresh(since, generation);
    var d := AfterAll(d0, runs);
    ToldAfterAll(since, generation, runs);
    FreshInv(since, generation);
    InvAfterAll(d0, runs);
    hide AfterAll;
    AcceptedIsLinked(d);
    var c := d.record.linked.value;
    var k :| 0 <= k < |runs| && Judges(runs[k].operation, d.record, c);
    assert VerdictOf(runs[k].operation) == Some(Accepts);
  }

  lemma AcceptedIsLinked(d: Disk)
    requires Inv(d) && d.record.state.AcceptedEvidence?
    ensures d.record.linked.Some? && Safe(d.record.linked.value, d.record.generation) && |d.record.linked.value.matching| == 1
    ensures d.final == d.record.linked && d.record.sentSeq.Some?
  {
    if d.record.linked.Some? {
      SafeHasFew(d.record.linked.value, d.record.generation);
    }
    hide Safe, FromRead;
  }

  /** Whatever runs and crashes: every receipt, window, refusal and verdict on record was met by some run, as it is recorded. */
  lemma {:induction false} RecordsAreExplained(since: nat, generation: Option<nat>, runs: seq<Attempt>)
    ensures Told(runs, AfterAll(Fresh(since, generation), runs))
  {
    ToldAfterAll(since, generation, runs);
  }
}
