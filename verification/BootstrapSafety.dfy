/** What every state of every bootstrap run satisfies, and what one write or network event may change. */
module BootstrapSafety {
  import opened Wrappers
  import opened Bootstrap

  // ------------------------------------------------------------------ invariant

  /** Before the send intent nothing else has happened. */
  ghost predicate Untouched(d: Disk) {
    && d.posts == 0 && d.gets == 0 && d.record.readCount == 0 && d.record.sentSeq.None?
    && d.final.None? && d.candidate.None? && !d.proposalFile
  }

  ghost predicate SendFits(d: Disk) {
    var r := d.record;
    && Stored(r)
    && d.posts <= r.sendCount
    && (r.state.Prepared? ==> d.approval.Requested? || d.approval.Approved?)
    && (r.state.Prepared? || r.state.Authorized? ==> Untouched(d))
    && (d.posts == 1 ==> !d.approval.Requested? && !d.approval.Approved?)
    && (NeedsReceipt(r.state) || r.sentSeq.Some? ==> d.posts == 1)
    && (NeedsReceipt(r.state) ==> d.approval.Confirmed?)
    && (r.sentSeq.Some? ==> r.since == r.sentSeq.value >= 1)
    && (r.state.Sending? ==> r.readCount == 0)
  }

  /** The files and the counter of the one read. */
  ghost predicate ReadFits(d: Disk) {
    var r := d.record;
    && d.gets <= r.readCount
    && (r.readCount == 1 ==> r.sentSeq.Some? && d.approval.Confirmed?)
    && (r.readCount == 0 ==> d.final.None? && d.candidate.None?)
    && (d.final.Some? ==> FromRead(d.final.value, r))
    && (d.candidate.Some? && d.candidate.value.Whole? ==> FromRead(d.candidate.value.value, r))
    && (r.linked.Some? ==> d.final == r.linked && r.readFailure.None?)
    && (r.state.Sent? ==> r.readCount == 0)
  }

  /** What is linked decides the state; only a safe window with at most one message moves the cursor. */
  ghost predicate EvidenceFits(d: Disk) {
    var r := d.record;
    && (r.challengeUsed <==> r.response.Some? && r.response.value.verified)
    && (r.envelope <==> r.challengeUsed)
    && (d.proposalFile || r.proposal ==> r.state.AcceptedEvidence?)
    && (r.state.NoResponse? ==> r.linked.Some? && r.acknowledged == NextCursor(r.linked.value))
    && match r.linked
       case None =>
         && r.response.None? && (r.sentSeq.Some? ==> r.acknowledged == r.since)
         && !r.state.AcceptedEvidence? && !r.state.InvalidResponse? && !r.state.NoResponse?
       case Some(c) =>
         && r.readCount == 1
         && (r.acknowledged == r.since || r.acknowledged == NextCursor(c))
         && (!Safe(c, r.generation) ==> UnsafeFailure(r) && r.acknowledged == r.since && !r.response.value.acknowledged)
         && (Safe(c, r.generation) && c.matching == [] ==>
               r.response.None? && (r.state.AwaitingResponse? || r.state.NoResponse?))
         && (Safe(c, r.generation) && c.matching != [] ==>
               && r.response.Some? && r.response.value.at == c.matching[0] && !UnsafeFailure(r)
               && (r.state.AcceptedEvidence? || r.state.Rejected? || r.state.InvalidResponse?)
               && (r.response.value.acknowledged ==> r.acknowledged == NextCursor(c)))
  }

  ghost predicate Inv(d: Disk) {
    SendFits(d) && ReadFits(d) && EvidenceFits(d)
  }

  // ---------------------------------------------------------- one write or one request

  ghost predicate SameButAcknowledged(a: Option<Response>, b: Option<Response>) {
    a == b || (a.Some? && b.Some? && b.value == a.value.(acknowledged := true))
  }

  /** What one write or one request may change. */
  ghost predicate Moves(a: Disk, b: Disk) {
    var r, q := a.record, b.record;
    // A POST only after its own durable intent, with the approval spent; a GET only after its own.
    && (b.posts == a.posts || (b.posts == 1 && a.posts == 0 && r.state.Sending? && r.sendCount == 1 && a.approval.Executing?))
    && (b.gets == a.gets || (b.gets == 1 && a.gets == 0 && r.readCount == 1 && r.state.AwaitingResponse?))
    && (b.posts != a.posts || b.gets != a.gets ==> q == r)
    // Terminal states stay, and nothing is requested in them.
    && (Terminal(r.state) ==>
          && q.state == r.state && b.posts == a.posts && b.gets == a.gets && b.approval == a.approval
          && q.linked == r.linked && SameButAcknowledged(r.response, q.response))
    // The cursor.
    && (r.sentSeq.Some? ==>
          && q.sentSeq == r.sentSeq && q.since == r.since && q.generation == r.generation && r.acknowledged <= q.acknowledged
          && (r.acknowledged < q.acknowledged ==>
                r.linked.Some? && Safe(r.linked.value, r.generation) && q.acknowledged == NextCursor(r.linked.value)))
    // Evidence and the challenge.
    && (r.linked.Some? ==> q.linked == r.linked) && (a.final.Some? ==> b.final == a.final)
    && (r.challengeUsed ==> q.challengeUsed && SameButAcknowledged(r.response, q.response))
  }

  function Before(d: Disk, states: seq<Disk>, k: nat): Disk
    requires k < |states|
  {
    if k == 0 then d else states[k - 1]
  }

  ghost predicate Sound(d: Disk, states: seq<Disk>) {
    forall k | 0 <= k < |states| :: Inv(states[k]) && Moves(Before(d, states, k), states[k])
  }

  lemma SoundJoins(d: Disk, a: seq<Disk>, b: seq<Disk>)
    requires Sound(d, a) && Sound(Last(d, a), b)
    ensures Sound(d, a + b)
  {
    hide Inv, Moves;
    forall k | 0 <= k < |a + b|
      ensures Inv((a + b)[k]) && Moves(Before(d, a + b, k), (a + b)[k])
    {
      if k < |a| {
        assert Before(d, a + b, k) == Before(d, a, k);
      } else {
        assert Before(d, a + b, k) == Before(Last(d, a), b, k - |a|);
      }
    }
  }

  lemma LastSound(d: Disk, states: seq<Disk>)
    requires Inv(d) && Sound(d, states)
    ensures Inv(Last(d, states))
  {
    hide Inv, Moves;
  }

  // ------------------------------------------------------------ authorization and send

  lemma AuthorizeSound(d: Disk, current: bool)
    requires Inv(d)
    ensures Sound(d, Authorize(d, current).states)
  {
  }

  lemma EndSendSound(d: Disk, a: Approval, saved: bool, r: Record)
    requires Inv(d) && d.record.linked.None? && !Terminal(d.record.state)
    requires saved ==> Inv(d.(approval := a)) && Moves(d, d.(approval := a))
    requires var e := if saved then d.(approval := a) else d; Inv(Put(e, r)) && Moves(e, Put(e, r))
    ensures Sound(d, EndSend(d, a, saved, r))
  {
    hide Inv, Moves;
  }

  /** While sending, nothing is known of a response: the approval and the final state are all that changes. */
  lemma GiveUpSound(d: Disk, a: Approval, saved: bool, r: Record)
    requires Inv(d) && d.record.state.Sending? && (d.posts == 1 || d.record.sentSeq.None?)
    requires d.approval.Executing? && (a.FailedResult? || a.AmbiguousResult?)
    requires r.linked.None? && r.response.None? && !r.challengeUsed && !r.envelope && !r.proposal && r.readCount == 0
    requires r.state.Rejected? || (r.state.AmbiguousDelivery? && r.sendCount == 1)
    requires d.posts <= r.sendCount <= 1
    requires r.sentSeq.Some? ==> d.posts == 1 && r.since == r.acknowledged == r.sentSeq.value >= 1
    requires d.record.sentSeq.Some? ==>
      r.sentSeq == d.record.sentSeq && r.acknowledged == d.record.acknowledged && r.since == d.record.since && r.generation == d.record.generation
    ensures Sound(d, EndSend(d, a, saved, r))
  {
    assert saved ==> Inv(d.(approval := a)) && Moves(d, d.(approval := a));
    hide Safe, FromRead, UnsafeFailure;
    EndSendSound(d, a, saved, r);
  }

  lemma ReceiptSound(d: Disk, c: SendCourse)
    requires Inv(d) && d.record.state.Sending? && d.posts == 1 && d.approval.Executing? && d.record.sentSeq.None?
    requires c.reply.Receipt? && c.reply.at >= 1 && c.recordsSaved >= 1
    ensures Sound(d, SettleSend(d, c).states)
  {
    hide Safe, FromRead, UnsafeFailure;
    var n := c.reply.at;
    var received := d.record.(sentSeq := Some(n), since := n, acknowledged := n,
                              generation := if c.reply.generation.Some? then c.reply.generation else d.record.generation);
    var d1 := Put(d, received);
    assert Inv(d1) && Moves(d, d1);
    if !c.outcomeSaved {
      GiveUpSound(d1, AmbiguousResult, c.doubtSaved, received.(state := AmbiguousDelivery));
      SoundJoins(d, [d1], EndSend(d1, AmbiguousResult, c.doubtSaved, received.(state := AmbiguousDelivery)));
    } else {
      ConfirmedSound(d1, received, c.recordsSaved);
      SoundJoins(d, [d1], ConfirmedStates(d1, received, c.recordsSaved));
    }
  }

  lemma ConfirmedSound(d: Disk, r: Record, saved: nat)
    requires Inv(d) && d.record == r && r.state.Sending? && d.posts == 1 && d.approval.Executing? && r.sentSeq.Some?
    ensures Sound(d, ConfirmedStates(d, r, saved))
  {
    hide Safe, FromRead, UnsafeFailure;
  }

  lemma SettleSendSound(d: Disk, c: SendCourse)
    requires Inv(d) && d.record.state.Sending? && d.posts == 1 && d.approval.Executing? && d.record.sentSeq.None?
    ensures Sound(d, SettleSend(d, c).states)
  {
    hide Safe, FromRead, UnsafeFailure, EndSend, Sound;
    match c.reply
    case Refused => GiveUpSound(d, FailedResult, c.outcomeSaved, d.record.(state := Rejected));
    case Receipt(n, generation) =>
      if n < 1 {
        GiveUpSound(d, AmbiguousResult, c.outcomeSaved, d.record.(state := AmbiguousDelivery));
      } else if c.recordsSaved == 0 {
        var received := d.record.(sentSeq := Some(n), since := n, acknowledged := n,
                                  generation := if generation.Some? then generation else d.record.generation);
        GiveUpSound(d, AmbiguousResult, c.outcomeSaved, received.(state := AmbiguousDelivery));
      } else {
        ReceiptSound(d, c);
      }
    case _ => GiveUpSound(d, AmbiguousResult, c.outcomeSaved, d.record.(state := AmbiguousDelivery));
  }

  lemma UnsentSound(d: Disk, a: Approval, saved: bool)
    requires Inv(d) && d.record.state.Authorized? && d.approval.Executing? && (a.FailedResult? || a.AmbiguousResult?)
    ensures Sound(d, EndSend(d, a, saved, d.record.(state := Rejected)))
  {
    hide Safe, FromRead, UnsafeFailure;
  }

  lemma SendSpentSound(d: Disk, c: SendCourse)
    requires Inv(d) && d.record.state.Authorized? && d.approval.Executing?
    ensures Sound(d, SendSpent(d, c).states)
  {
    hide Safe, FromRead, UnsafeFailure, EndSend, SettleSend;
    if c.expiredConsumed || !c.signed {
      UnsentSound(d, FailedResult, c.outcomeSaved);
    } else if !c.bound {
      UnsentSound(d, AmbiguousResult, c.outcomeSaved);
    } else {
      var d1 := Put(d, d.record.(state := Sending, sendCount := 1));
      assert Sound(d, [d1]);
      if c.expiredIntent {
        GiveUpSound(d1, AmbiguousResult, c.outcomeSaved, d1.record.(state := Rejected, sendCount := 0));
        SoundJoins(d, [d1], EndSend(d1, AmbiguousResult, c.outcomeSaved, d1.record.(state := Rejected, sendCount := 0)));
      } else {
        var d2 := d1.(posts := d1.posts + 1);
        assert Sound(d, [d1, d2]);
        SettleSendSound(d2, c);
        SoundJoins(d, [d1, d2], SettleSend(d2, c).states);
      }
    }
  }

  lemma SendSound(d: Disk, c: SendCourse)
    requires Inv(d)
    ensures Sound(d, Send(d, c).states)
  {
    hide Safe, FromRead, UnsafeFailure, SendSpent;
    var r := d.record;
    if c.current && r.state.Authorized? && !c.expired && c.ready && d.approval.Approved? {
      var d1 := d.(approval := Executing);
      assert Sound(d, [d1]);
      SendSpentSound(d1, c);
      SoundJoins(d, [d1], SendSpent(d1, c).states);
    }
  }

  // ---------------------------------------------------------------------- receiving

  ghost predicate Observed(d: Disk, c: Checkpoint) {
    && Inv(d) && d.record.state.AwaitingResponse? && d.record.linked.None? && d.record.readCount == 1
    && d.final == Some(c)
  }

  lemma UnsafeSound(d: Disk, c: Checkpoint)
    requires Observed(d, c) && !Safe(c, d.record.generation)
    ensures var response := Response(FirstOf(c), false, None, Some(UnsafeCode(c, d.record.generation)), false);
      Sound(d, [Put(d, Linked(d.record, c).(state := InvalidResponse, response := Some(response)))])
  {
    hide Safe, InOrder;
  }

  lemma LinkSound(d: Disk, c: Checkpoint, verdict: Verdict)
    requires Observed(d, c) && Safe(c, d.record.generation)
    ensures c.matching == [] ==> Sound(d, [Put(d, Linked(d.record, c))])
    ensures c.matching != [] ==> Sound(d, [Put(d, Judged(d.record, c, verdict))])
  {
    assert |c.matching| <= 1;
    hide Safe, InOrder;
  }

  /** A safe window never takes the cursor back. */
  lemma SafeMovesForward(c: Checkpoint, generation: Option<nat>)
    requires Safe(c, generation)
    ensures c.previousCursor <= NextCursor(c)
  {
  }

  lemma AdvanceSound(d: Disk, c: Checkpoint)
    requires Inv(d) && d.record.linked == Some(c) && Safe(c, d.record.generation)
    requires d.record.acknowledged == d.record.since && (d.record.response.Some? ==> !d.record.response.value.acknowledged)
    requires !d.record.state.NoResponse?
    ensures Sound(d, Advance(d, c).states) && Advance(d, c).result.Ok?
  {
    SafeMovesForward(c, d.record.generation);
    hide Safe;
  }

  lemma ProcessSound(d: Disk, c: Checkpoint, verdict: Verdict, clock: bool)
    requires Observed(d, c)
    ensures Sound(d, Process(d, c, verdict, clock).states)
    ensures Process(d, c, verdict, clock).result != Err(CursorRegression)
  {
    SafeHasFew(c, d.record.generation);
    hide Safe, Inv, Moves, Advance, Usable;
    if clock && Usable(c, d.record) {
      if !Safe(c, d.record.generation) {
        UnsafeSound(d, c);
      } else {
        LinkSound(d, c, verdict);
        var d1 := Put(d, if c.matching == [] then Linked(d.record, c) else Judged(d.record, c, verdict));
        assert Sound(d, [d1]);
        AcknowledgedIsSince(d);
        LastSound(d, [d1]);
        AdvanceSound(d1, c);
        SoundJoins(d, [d1], Advance(d1, c).states);
      }
    }
  }

  lemma SafeHasFew(c: Checkpoint, generation: Option<nat>)
    ensures Safe(c, generation) ==> |c.matching| <= 1
  {
  }

  lemma AcknowledgedIsSince(d: Disk)
    requires Inv(d) && d.record.linked.None?
    ensures d.record.sentSeq.Some? ==> d.record.acknowledged == d.record.since
    ensures d.record.state.AwaitingResponse? ==> d.record.sentSeq.Some?
    ensures d.record.response.None?
  {
  }

  /** A linked safe window, seen from its record. */
  lemma LinkedIsSafe(d: Disk)
    requires Inv(d) && d.record.linked.Some? && !UnsafeFailure(d.record)
    ensures var c := d.record.linked.value;
      && Safe(c, d.record.generation) && d.final == Some(c) && d.record.sentSeq.Some?
      && d.record.since <= NextCursor(c) && (d.record.acknowledged == d.record.since || d.record.acknowledged == NextCursor(c))
      && (d.record.response.Some? && d.record.response.value.acknowledged ==> d.record.acknowledged == NextCursor(c))
      && (d.record.state.NoResponse? ==> d.record.acknowledged == NextCursor(c))
  {
    SafeMovesForward(d.record.linked.value, d.record.generation);
    hide Safe, InOrder;
  }

  lemma CursorStepSound(d: Disk)
    requires Inv(d) && d.record.linked.Some? && !UnsafeFailure(d.record)
    requires d.record.acknowledged < NextCursor(d.record.linked.value)
    ensures Sound(d, [Put(d, d.record.(acknowledged := NextCursor(d.record.linked.value)))])
  {
    LinkedIsSafe(d);
    hide Safe, FromRead;
  }

  lemma AckResponseSound(d: Disk)
    requires Inv(d) && d.record.linked.Some? && !UnsafeFailure(d.record)
    requires d.record.response.Some? && d.record.acknowledged == NextCursor(d.record.linked.value)
    ensures Sound(d, [AckResponse(d)])
  {
    LinkedIsSafe(d);
    hide Safe, FromRead;
  }

  lemma CompleteCursorSound(d: Disk, clock: bool)
    requires Inv(d) && !UnsafeFailure(d.record)
    ensures CompleteCursor(d, clock).Some? ==>
      && Sound(d, CompleteCursor(d, clock).value.states)
      && Last(d, CompleteCursor(d, clock).value.states).record.state == d.record.state
      && Last(d, CompleteCursor(d, clock).value.states).record.linked == d.record.linked
      && CompleteCursor(d, clock).value.result != Err(EvidenceChanged)
      && CompleteCursor(d, clock).value.result != Err(CursorRegression)
  {
    if d.record.linked.Some? {
      hide Inv, Moves, Usable;
      LinkedIsSafe(d);
      if d.record.acknowledged < NextCursor(d.record.linked.value) {
        var d1 := Put(d, d.record.(acknowledged := NextCursor(d.record.linked.value)));
        CursorStepSound(d);
        LastSound(d, [d1]);
        if d1.record.response.Some? {
          AckResponseSound(d1);
          SoundJoins(d, [d1], [AckResponse(d1)]);
        }
      } else if d.record.response.Some? {
        AckResponseSound(d);
      }
    }
  }

  lemma ExamineIsObserved(d: Disk, clock: bool)
    requires Inv(d) && d.record.state.AwaitingResponse? && d.record.linked.None? && Examine(d, clock).Evidence?
    ensures var c := Examine(d, clock).value;
      var d1 := if d.final.Some? then d else d.(final := Some(c), candidate := None);
      && Observed(d1, c) && (d.final.None? ==> Sound(d, [d1]))
  {
    hide Safe, UnsafeFailure;
  }

  lemma RecoverSound(d: Disk, verdict: Verdict, clock: bool)
    requires Inv(d) && d.record.state.AwaitingResponse?
    ensures RecoverUnlinked(d, verdict, clock).Some? ==>
      && Sound(d, RecoverUnlinked(d, verdict, clock).value.states)
      && RecoverUnlinked(d, verdict, clock).value.result != Err(CursorRegression)
  {
    if d.record.linked.None? {
      if Examine(d, clock).Unreadable? {
        hide Safe, UnsafeFailure, Examine, FromRead;
      } else if Examine(d, clock).Evidence? {
        hide Inv, Moves, Examine, Process;
        var c := Examine(d, clock).value;
        ExamineIsObserved(d, clock);
        var d1 := if d.final.Some? then d else d.(final := Some(c), candidate := None);
        ProcessSound(d1, c, verdict, clock);
        var first := if d.final.Some? then [] else [d1];
        SoundJoins(d, first, Process(d1, c, verdict, clock).states);
      }
    }
  }

  lemma FailReadSound(d: Disk, failure: ReadFailure)
    requires Inv(d) && d.record.state.AwaitingResponse? && d.record.linked.None?
    ensures Sound(d, FailRead(d, failure).states) && FailRead(d, failure).result == Err(ReadIncomplete)
  {
    hide Safe, UnsafeFailure;
  }

  lemma StageStepsSound(d: Disk, c: Checkpoint)
    requires Inv(d) && d.record.state.AwaitingResponse? && d.record.linked.None? && d.record.readCount == 1
    requires FromRead(c, d.record) && d.candidate.None? && d.final.None?
    ensures var d1, d2, d3 := d.(candidate := Some(Torn)), d.(candidate := Some(Whole(c))), d.(final := Some(c));
      && Sound(d, [d1]) && Sound(d, [d1, d2]) && Sound(d, [d1, d2, d3]) && Inv(d1) && Inv(d2) && Observed(d3, c)
  {
    hide Safe, UnsafeFailure, FromRead;
  }

  lemma StageSound(d: Disk, c: Checkpoint, course: ReceiveCourse)
    requires Inv(d) && d.record.state.AwaitingResponse? && d.record.linked.None? && d.record.readCount == 1
    requires FromRead(c, d.record)
    ensures Sound(d, Stage(d, c, course).states) && Stage(d, c, course).result != Err(CursorRegression)
  {
    hide Inv, Moves, FailRead, Process, Sound, FromRead;
    if d.candidate.Some? || d.final.Some? || course.staged == 0 {
      FailReadSound(d, PersistenceFailed);
    } else {
      StageStepsSound(d, c);
      var d1, d2, d3 := d.(candidate := Some(Torn)), d.(candidate := Some(Whole(c))), d.(final := Some(c));
      FailReadSound(d1, PersistenceFailed);
      SoundJoins(d, [d1], FailRead(d1, PersistenceFailed).states);
      FailReadSound(d2, PersistenceFailed);
      SoundJoins(d, [d1, d2], FailRead(d2, PersistenceFailed).states);
      FailReadSound(d3, PersistenceFailed);
      SoundJoins(d, [d1, d2, d3], FailRead(d3, PersistenceFailed).states);
      ProcessSound(d3, c, course.verdict, course.clock);
      SoundJoins(d, [d1, d2, d3], Process(d3, c, course.verdict, course.clock).states);
    }
  }

  lemma ReadIntentSound(d: Disk)
    requires Inv(d) && d.record.state.AwaitingResponse? && d.record.linked.None? && d.record.readCount == 0
    ensures var d1 := Put(d, d.record.(readCount := 1)); var d2 := d1.(gets := d1.gets + 1);
      Sound(d, [d1, d2]) && Inv(d2)
  {
    hide Safe, UnsafeFailure, FromRead;
  }

  lemma ReadSound(d: Disk, course: ReceiveCourse)
    requires Inv(d) && d.record.state.AwaitingResponse? && d.record.linked.None? && d.record.readCount == 0
    ensures Sound(d, Read(d, course).states) && Read(d, course).result != Err(CursorRegression)
  {
    hide Inv, Moves, FailRead, Stage, Sound, FromRead;
    var d1 := Put(d, d.record.(readCount := 1));
    var d2 := d1.(gets := d1.gets + 1);
    ReadIntentSound(d);
    FailReadSound(d2, TransportFailed);
    FailReadSound(d2, PersistenceFailed);
    SoundJoins(d, [d1, d2], FailRead(d2, TransportFailed).states);
    SoundJoins(d, [d1, d2], FailRead(d2, PersistenceFailed).states);
    if course.window.Window? && FromRead(course.window.checkpoint, d2.record) {
      StageSound(d2, course.window.checkpoint, course);
      SoundJoins(d, [d1, d2], Stage(d2, course.window.checkpoint, course).states);
    }
  }

  lemma AwaitSound(d: Disk, course: ReceiveCourse)
    requires Inv(d) && d.record.state.AwaitingResponse?
    ensures Sound(d, Await(d, course).states) && Await(d, course).result != Err(CursorRegression)
  {
    hide Inv, Moves, Read, RecoverUnlinked;
    RecoverSound(d, course.verdict, course.clock);
    if RecoverUnlinked(d, course.verdict, course.clock).None? && d.record.readCount == 0 {
      UnreadIsUnlinked(d);
      ReadSound(d, course);
    }
  }

  lemma UnreadIsUnlinked(d: Disk)
    requires Inv(d) && d.record.readCount == 0
    ensures d.record.linked.None?
  {
  }

  lemma SentSound(d: Disk)
    requires Inv(d) && d.record.state.Sent? && d.approval.Confirmed?
    ensures var d1 := Put(d, d.record.(state := AwaitingResponse)); Sound(d, [d1]) && Inv(d1)
  {
    hide Safe, FromRead;
  }

  lemma ReceiveSound(d: Disk, course: ReceiveCourse)
    requires Inv(d)
    ensures Sound(d, Receive(d, course).states)
    ensures Receive(d, course).result != Err(CursorRegression)
  {
    hide Inv, Moves, Await, CompleteCursor, UnsafeFailure;
    if course.current && !UnsafeFailure(d.record) {
      CompleteCursorSound(d, course.clock);
      if CompleteCursor(d, course.clock).None? {
        if d.record.state.Sent? && d.approval.Confirmed? {
          var d1 := Put(d, d.record.(state := AwaitingResponse));
          SentSound(d);
          AwaitSound(d1, course);
          SoundJoins(d, [d1], Await(d1, course).states);
        } else if d.record.state.AwaitingResponse? {
          AwaitSound(d, course);
        }
      }
    }
  }

  // --------------------------------------------------------------- timeout and proposal

  lemma AwaitingIsNotUnsafe(d: Disk)
    requires d.record.state.AwaitingResponse? || d.record.state.AcceptedEvidence?
    ensures !UnsafeFailure(d.record)
  {
  }

  lemma NoResponseSound(d: Disk)
    requires Inv(d) && d.record.state.AwaitingResponse? && d.record.linked.Some?
    requires d.record.acknowledged == NextCursor(d.record.linked.value)
    ensures Sound(d, [Put(d, d.record.(state := NoResponse))])
  {
    hide Safe;
  }

  lemma GiveUpReadSound(d: Disk, failure: Option<ReadFailure>)
    requires Inv(d) && d.record.state.AwaitingResponse? && d.record.linked.None?
    ensures Sound(d, [Put(d, d.record.(state := AmbiguousDelivery, readFailure := failure))])
  {
    hide Safe;
  }

  lemma PendingIsComplete(d: Disk, clock: bool)
    requires Inv(d) && d.record.linked.Some? && !UnsafeFailure(d.record)
    requires CompleteCursor(d, clock).None? || CompleteCursor(d, clock).value.result.Ok?
    ensures var d1 := Last(d, if CompleteCursor(d, clock).Some? then CompleteCursor(d, clock).value.states else []);
      && d1.record.acknowledged == NextCursor(d.record.linked.value) && d1.record.linked == d.record.linked
      && d1.record.state == d.record.state && d1.final == d.final && d1.proposalFile == d.proposalFile
      && d1.record.proposal == d.record.proposal
  {
    LinkedIsSafe(d);
    hide Inv, Usable, Safe;
  }

  lemma LinkedHasNoFailure(d: Disk)
    requires Inv(d) && d.record.linked.Some?
    ensures d.record.readFailure.None?
  {
  }

  lemma ConcludeSound(d: Disk, expired: bool, clock: bool)
    requires Inv(d)
    ensures Sound(d, Conclude(d, expired, clock).states)
  {
    hide Inv, Moves, CompleteCursor, UnsafeFailure;
    if d.record.state.AwaitingResponse? {
      if d.record.linked.None? {
        GiveUpReadSound(d, if d.record.readFailure.Some? then d.record.readFailure else Some(PersistenceFailed));
      } else {
        LinkedHasNoFailure(d);
        AwaitingIsNotUnsafe(d);
        CompleteCursorSound(d, clock);
        var pending := CompleteCursor(d, clock);
        if pending.None? || pending.value.result.Ok? {
          PendingIsComplete(d, clock);
          var states := if pending.Some? then pending.value.states else [];
          var d1 := Last(d, states);
          LastSound(d, states);
          NoResponseSound(d1);
          SoundJoins(d, states, [Put(d1, d1.record.(state := NoResponse))]);
        }
      }
    }
  }

  lemma TimeoutSound(d: Disk, current: bool, expired: bool, clock: bool, verdict: Verdict)
    requires Inv(d)
    ensures Sound(d, Timeout(d, current, expired, clock, verdict).states)
  {
    hide Inv, Moves, Conclude, RecoverUnlinked;
    if current && !Terminal(d.record.state) {
      if d.record.state.AwaitingResponse? {
        RecoverSound(d, verdict, clock);
      }
      var recovered := if d.record.state.AwaitingResponse? then RecoverUnlinked(d, verdict, clock) else None;
      var states := if recovered.Some? then recovered.value.states else [];
      var d1 := Last(d, states);
      LastSound(d, states);
      ConcludeSound(d1, expired, clock);
      SoundJoins(d, states, Conclude(d1, expired, clock).states);
    }
  }

  lemma ProposalStepSound(d: Disk)
    requires Inv(d) && d.record.state.AcceptedEvidence?
    ensures var d1 := d.(proposalFile := true);
      Sound(d, [d1, Put(d1, d1.record.(proposal := true))]) && (d.proposalFile ==> Sound(d, [Put(d1, d1.record.(proposal := true))]))
  {
    hide Safe;
  }

  lemma ProposeSound(d: Disk, current: bool, clock: bool)
    requires Inv(d)
    ensures Sound(d, Propose(d, current, clock).states)
  {
    hide Inv, Moves, CompleteCursor, UnsafeFailure;
    if current && d.record.state.AcceptedEvidence? {
      AwaitingIsNotUnsafe(d);
      CompleteCursorSound(d, clock);
      var pending := CompleteCursor(d, clock);
      var states := if pending.Some? then pending.value.states else [];
      var d1 := Last(d, states);
      LastSound(d, states);
      ProposalStepSound(d1);
      var d2 := d1.(proposalFile := true);
      var last := [Put(d2, d2.record.(proposal := true))];
      assert [d2] + last == [d2, Put(d2, d2.record.(proposal := true))] && [] + last == last;
      SoundJoins(d, states, [d2] + last);
      if d1.proposalFile {
        SoundJoins(d, states, [Put(d2, d2.record.(proposal := true))]);
      }
    }
  }

  lemma OperationSound(d: Disk, op: Operation)
    requires Inv(d)
    ensures Sound(d, TraceOf(d, op).states)
  {
    hide Inv, Sound, Authorize, Send, Receive, Timeout, Propose;
    match op
    case DoAuthorize(current) => AuthorizeSound(d, current);
    case DoSend(c) => SendSound(d, c);
    case DoReceive(c) => ReceiveSound(d, c);
    case DoTimeout(current, expired, clock, verdict) => TimeoutSound(d, current, expired, clock, verdict);
    case DoPropose(current, clock) => ProposeSound(d, current, clock);
  }

  // ------------------------------------------------------------------- theorems

  lemma AfterKeepsInv(d: Disk, a: Attempt)
    requires Inv(d)
    ensures Inv(After(d, a))
  {
    hide Inv, Moves, TraceOf;
    OperationSound(d, a.operation);
  }

  lemma {:induction false} InvAfterAll(d: Disk, runs: seq<Attempt>)
    requires Inv(d)
    ensures Inv(AfterAll(d, runs))
    decreases |runs|
  {
    hide Inv, After;
    if runs != [] {
      InvAfterAll(d, runs[..|runs| - 1]);
      AfterKeepsInv(AfterAll(d, runs[..|runs| - 1]), runs[|runs| - 1]);
    }
  }

  lemma FreshInv(since: nat, generation: Option<nat>)
    ensures Inv(Fresh(since, generation))
  {
  }

  /** However often it is interrupted and started again, one bootstrap posts at most once and reads at most once. */
  lemma {:induction false} AtMostOnePostAndOneGet(since: nat, generation: Option<nat>, runs: seq<Attempt>)
    ensures AfterAll(Fresh(since, generation), runs).posts <= 1
    ensures AfterAll(Fresh(since, generation), runs).gets <= 1
  {
    hide AfterAll;
    FreshInv(since, generation);
    InvAfterAll(Fresh(since, generation), runs);
  }

  /** No state that a run can leave behind is refused when the record is read again. */
  lemma {:induction false} EveryRecordReloads(since: nat, generation: Option<nat>, runs: seq<Attempt>)
    ensures Stored(AfterAll(Fresh(since, generation), runs).record)
  {
    hide AfterAll;
    FreshInv(since, generation);
    InvAfterAll(Fresh(since, generation), runs);
  }

  /** A missing response is only ever concluded from a linked, complete, gap-free window of the right generation without one. */
  lemma {:induction false} NoResponseIsObserved(since: nat, generation: Option<nat>, runs: seq<Attempt>)
    requires AfterAll(Fresh(since, generation), runs).record.state.NoResponse?
    ensures var d := AfterAll(Fresh(since, generation), runs);
      && d.record.linked.Some? && d.final == d.record.linked
      && var c := d.record.linked.value;
      && SameGeneration(c, d.record.generation) && GapFree(c) && InOrder(c) && CompleteWindow(c)
      && c.matching == [] && !c.overflow && c.previousCursor == d.record.since && d.record.acknowledged == NextCursor(c)
  {
    var d := AfterAll(Fresh(since, generation), runs);
    FreshInv(since, generation);
    InvAfterAll(Fresh(since, generation), runs);
    hide AfterAll;
  }

  /** The cursor leaves the sent message's position only for a safe, linked window, and then exactly to its end. */
  lemma {:induction false} CursorIsJustified(since: nat, generation: Option<nat>, runs: seq<Attempt>)
    ensures var d := AfterAll(Fresh(since, generation), runs);
      d.record.sentSeq.Some? && d.record.acknowledged != d.record.sentSeq.value ==>
        && d.record.linked.Some? && d.final == d.record.linked && Safe(d.record.linked.value, d.record.generation)
        && d.record.acknowledged == NextCursor(d.record.linked.value) > d.record.sentSeq.value
  {
    var d := AfterAll(Fresh(since, generation), runs);
    FreshInv(since, generation);
    InvAfterAll(Fresh(since, generation), runs);
    if d.record.linked.Some? && Safe(d.record.linked.value, d.record.generation) {
      SafeMovesForward(d.record.linked.value, d.record.generation);
    }
    hide AfterAll, Safe;
  }

  // ------------------------------------------------------------ what runs never undo

  /** `b` is `a` or came later: what was settled stays settled. */
  ghost predicate Later(a: Disk, b: Disk) {
    && (Terminal(a.record.state) ==>
          && b.record.state == a.record.state && b.posts == a.posts && b.gets == a.gets && b.approval == a.approval
          && b.record.linked == a.record.linked && SameButAcknowledged(a.record.response, b.record.response))
    && (a.record.sentSeq.Some? ==>
          b.record.sentSeq == a.record.sentSeq && b.record.since == a.record.since && a.record.acknowledged <= b.record.acknowledged)
    && (a.record.linked.Some? ==> b.record.linked == a.record.linked)
    && (a.record.challengeUsed ==> b.record.challengeUsed && SameButAcknowledged(a.record.response, b.record.response))
    && a.posts <= b.posts && a.gets <= b.gets
  }

  lemma LaterJoins(a: Disk, b: Disk, c: Disk)
    requires Later(a, b) && Later(b, c)
    ensures Later(a, c)
  {
  }

  lemma MovesIsLater(a: Disk, b: Disk)
    requires Moves(a, b)
    ensures Later(a, b)
  {
  }

  lemma {:induction false} SoundIsLater(d: Disk, states: seq<Disk>)
    requires Sound(d, states)
    ensures Later(d, Last(d, states))
    decreases |states|
  {
    hide Inv, Moves;
    if states == [] {
      SameIsLater(d);
    } else {
      var n := |states| - 1;
      var front := states[..n];
      assert Sound(d, front) by {
        forall k | 0 <= k < n
          ensures Inv(front[k]) && Moves(Before(d, front, k), front[k])
        {
          assert Before(d, front, k) == Before(d, states, k);
        }
      }
      SoundIsLater(d, front);
      assert Before(d, states, n) == Last(d, front);
      MovesIsLater(Last(d, front), states[n]);
      LaterJoins(d, Last(d, front), states[n]);
    }
  }

  lemma SameIsLater(d: Disk)
    ensures Later(d, d)
  {
  }

  lemma AfterIsLater(d: Disk, a: Attempt)
    requires Inv(d)
    ensures Later(d, After(d, a))
  {
    hide Inv, Moves, TraceOf, Later;
    OperationSound(d, a.operation);
    var states := TraceOf(d, a.operation).states;
    var done := if a.cut <= |states| then states[..a.cut] else states;
    assert forall k | 0 <= k < |done| :: Before(d, done, k) == Before(d, states, k);
    SoundIsLater(d, done);
  }

  /**
   Terminal states absorb every operation, the cursor never goes back after the receipt, evidence once
   linked and a challenge once used stay as they are; over any further runs, cut off anywhere.
   */
  lemma {:induction false} SettledStaysSettled(d: Disk, runs: seq<Attempt>)
    requires Inv(d)
    ensures Later(d, AfterAll(d, runs))
    decreases |runs|
  {
    hide Inv, After, Later;
    if runs == [] {
      SameIsLater(d);
    } else {
      var before := AfterAll(d, runs[..|runs| - 1]);
      SettledStaysSettled(d, runs[..|runs| - 1]);
      InvAfterAll(d, runs[..|runs| - 1]);
      AfterIsLater(before, runs[|runs| - 1]);
      LaterJoins(d, before, AfterAll(d, runs));
    }
  }

  /** A witness that nothing above forbids success: this course is authorized, sent, answered, read in time and accepted. */
  lemma AcceptanceIsReachable(since: nat, n: nat)
    requires n >= 1
    ensures var window := Checkpoint(n, Some(1), n + 1, Some(n + 1), None, [n + 1], false);
      var d := Fresh(since, None);
      var d1 := Last(d, Authorize(d, true).states);
      var d2 := Last(d1, Send(d1, SendCourse(true, false, true, false, true, true, false, Receipt(n, None), true, true, 3)).states);
      var d3 := Last(d2, Receive(d2, ReceiveCourse(true, false, true, Window(window), 4, Accepts)).states);
      && d3.record.state.AcceptedEvidence? && d3.record.acknowledged == n + 1 && d3.record.response.value.acknowledged
      && d3.posts == 1 && d3.gets == 1
  {
  }
}
