/** The one path on which the bridge signs and sends: approval, nonce, transport, outcome, in that order. */
module Bridge {
  import opened Wrappers
  import opened Approvals
  import opened Transport
  import opened SignedSend

  datatype SendResult = Delivered | NotApproved | NotSent | RefusedByServer | OutcomeUnknown

  /** `t` is reached from `s` by steps of other callers, operators, tasks and the network. */
  ghost predicate Others(g: Setting, s: State, me: CallId, t: State) {
    exists log :: Run(g, s, log, t) && NotMine(me, log)
  }

  ghost predicate NotMine(me: CallId, log: seq<Action>) {
    forall i | 0 <= i < |log| :: OfCall(log[i]) ==> log[i].call != me
  }

  lemma {:induction false} OthersLeaveMeAlong(g: Setting, s: State, me: CallId, log: seq<Action>, t: State)
    requires Run(g, s, log, t) && NotMine(me, log) && me in s.calls
    ensures me in t.calls && t.calls[me] == s.calls[me]
    ensures me in t.history.dispatched <==> me in s.history.dispatched
    decreases |log|
  {
    if log != [] {
      OtherStepLeavesMe(g, s, me, log[0]);
      hide Enabled, Apply;
      OthersLeaveMeAlong(g, Apply(g, s, log[0]), me, log[1..], t);
    }
  }

  lemma FinishKeepsCalls(s: State, id: ActionId, status: Status)
    ensures Finish(s, id, status).calls == s.calls && Finish(s, id, status).history == s.history
  {
  }

  lemma OnlyOwnEnd(g: Setting, s: State, a: Action)
    requires Enabled(g, s, a) && (a.Settle? || a.Close?)
    ensures var t := Apply(g, s, a);
      && a.call in t.calls && t.calls == s.calls[a.call := t.calls[a.call]]
      && t.history.dispatched == s.history.dispatched
  {
    hide Finish;
    FinishKeepsCalls(Move(s, a.call, Returned), s.calls[a.call].id, if a.Settle? then Confirmed else s.calls[a.call].pc.status);
  }

  /** A step of one call touches that call alone. */
  lemma OnlyOwnCall(g: Setting, s: State, a: Action)
    requires Enabled(g, s, a) && OfCall(a)
    ensures var t := Apply(g, s, a);
      && a.call in t.calls && t.calls == s.calls[a.call := t.calls[a.call]]
      && (t.history.dispatched == s.history.dispatched || t.history.dispatched == s.history.dispatched + [a.call])
  {
    if a.Settle? || a.Close? {
      hide Enabled, Apply;
      OnlyOwnEnd(g, s, a);
    }
  }

  lemma OtherCallLeavesMe(g: Setting, s: State, me: CallId, a: Action)
    requires Enabled(g, s, a) && OfCall(a) && a.call != me && me in s.calls
    ensures me in Apply(g, s, a).calls && Apply(g, s, a).calls[me] == s.calls[me]
    ensures me in Apply(g, s, a).history.dispatched <==> me in s.history.dispatched
  {
    hide Enabled, Apply;
    OnlyOwnCall(g, s, a);
  }

  lemma OtherStepLeavesMe(g: Setting, s: State, me: CallId, a: Action)
    requires Enabled(g, s, a) && (OfCall(a) ==> a.call != me) && me in s.calls
    ensures me in Apply(g, s, a).calls && Apply(g, s, a).calls[me] == s.calls[me]
    ensures me in Apply(g, s, a).history.dispatched <==> me in s.history.dispatched
  {
    if OfCall(a) {
      hide Enabled, Apply;
      OtherCallLeavesMe(g, s, me, a);
    } else if OfTask(a) || a.Enqueue? {
      hide Enabled, Apply;
      OnlyTasks(g, s, a);
    }
  }

  /** What a call was asked to send does not change while it runs. */
  ghost predicate SameRequest(a: Call, b: Call) {
    a.id == b.id && a.effect == b.effect && a.text == b.text
  }

  ghost predicate Unanswered(c: Call) {
    c.outcome.None? && c.replies == []
  }

  lemma {:induction false} RunSnoc(g: Setting, s: State, log: seq<Action>, t: State, x: Action)
    requires Run(g, s, log, t) && Enabled(g, t, x)
    ensures Run(g, s, log + [x], Apply(g, t, x))
    decreases |log|
  {
    hide Enabled, Apply;
    if log == [] {
      assert Run(g, Apply(g, s, x), [], Apply(g, t, x));
      assert [x][1..] == [];
    } else {
      RunSnoc(g, Apply(g, s, log[0]), log[1..], t, x);
      assert (log + [x])[1..] == log[1..] + [x];
    }
  }

  /** The stores and the network that concurrent calls share, with everything done to them so far. */
  class Shared {
    const g: Setting
    var s: State
    ghost var log: seq<Action>

    constructor (g: Setting)
      ensures this.g == g && s == Initial && Valid()
    {
      this.g := g;
      s, log := Initial, [];
    }

    ghost predicate Valid()
      reads this
    {
      Run(g, Initial, log, s)
    }

    method Do(x: Action)
      requires Valid() && Enabled(g, s, x)
      modifies this
      ensures Valid() && s == Apply(g, old(s), x) && log == old(log) + [x]
    {
      RunSnoc(g, Initial, log, s, x);
      s, log := Apply(g, s, x), log + [x];
    }

    /** Any number of steps of other callers, operators, tasks and the network may happen here. */
    method Interfere(me: CallId)
      requires Valid()
      modifies this
      ensures Valid() && Others(g, old(s), me, s) && old(log) <= log
    {
      assert Run(g, s, [], s);
    }

    /** Between two steps of one call everything else may move; the call itself stays where it is. */
    method Pause(me: CallId)
      requires Valid() && me in s.calls
      modifies this
      ensures Valid() && me in s.calls && s.calls[me] == old(s.calls[me]) && Inv(g, s) && old(log) <= log
      ensures me in s.history.dispatched <==> me in old(s.history.dispatched)
    {
      hide Run, Inv;
      ghost var before := s;
      Interfere(me);
      ghost var others :| Run(g, before, others, s) && NotMine(me, others);
      OthersLeaveMeAlong(g, before, me, others, s);
      ReachableInv(g, s);
    }

    method Begin(me: CallId, name: string, effect: Effect, text: Text)
      requires Valid() && me !in s.calls && effect.payload == g.clean(text)
      modifies this
      ensures Valid() && At(s, me, Entered) && Unanswered(s.calls[me])
      ensures s.calls[me].id == ActionId(effect.alias, name) && s.calls[me].effect == effect && s.calls[me].text == text
      ensures old(log) <= log
    {
      hide Run;
      Do(Enter(me, ActionId(effect.alias, name), effect, text));
    }

    /** Makes sure that a record of exactly this effect exists, or goes no further; `at` is what the stores held when it looked. */
    method AskFor(me: CallId) returns (asked: bool, ghost at: State)
      requires Valid() && At(s, me, Entered) && Unanswered(s.calls[me])
      modifies this
      ensures Valid() && me in s.calls && Inv(g, s) && SameRequest(old(s.calls[me]), s.calls[me]) && Unanswered(s.calls[me])
      ensures if asked then s.calls[me].pc.Proposed? else s.calls[me].pc.Returned?
      ensures me !in s.history.dispatched
      ensures old(log) <= log && Was(g, log, at) && (asked <==> Proposable(at, s.calls[me].id, s.calls[me].effect))
    {
      hide Run, Inv, RecordFits;
      Pause(me);
      InvCall(g, s, me);
      at := s;
      ghost var past := log;
      Do(Ask(me));
      assert Was(g, log, at) by { WasHere(g, past, at, log); }
      asked := s.calls[me].pc.Proposed?;
      ReachableInv(g, s);
    }

    /** Spends the approval of exactly this effect, or goes no further. */
    method Consume(me: CallId) returns (spent: bool, ghost asking: State, ghost spending: State)
      requires Valid() && At(s, me, Entered) && Unanswered(s.calls[me])
      modifies this
      ensures Valid() && me in s.calls && Inv(g, s) && SameRequest(old(s.calls[me]), s.calls[me]) && Unanswered(s.calls[me])
      ensures spent ==> s.calls[me].pc.Spent?
      ensures !spent ==> s.calls[me].pc.Returned? || s.calls[me].pc.NeedsApproval?
      ensures me !in s.history.dispatched
      ensures old(log) <= log && Was(g, log, asking) && Was(g, log, spending)
      ensures var id, effect := s.calls[me].id, s.calls[me].effect;
        && (spent <==> Proposable(asking, id, effect) && HasStatus(spending, id, effect, Approved))
        && (s.calls[me].pc.NeedsApproval? <==> Proposable(asking, id, effect) && HasStatus(spending, id, effect, Requested))
    {
      hide Run, Inv, RecordFits, Was;
      spent, asking := AskFor(me);
      spending := asking;
      if spent {
        ghost var before := log;
        Pause(me);
        WasStill(g, before, log, asking);
        InvCall(g, s, me);
        spending := s;
        ghost var past := log;
        Do(Spend(me));
        WasHere(g, past, spending, log);
        WasStill(g, past, log, asking);
        spent := s.calls[me].pc.Spent?;
      }
      ReachableInv(g, s);
    }

    /** A fresh nonce and a signature over it, or a failed record. */
    method ReserveAndSign(me: CallId, clock: nat, signs: bool, saved: bool) returns (signed: bool, ghost at: State)
      requires Valid() && At(s, me, Pc.Spent) && Unanswered(s.calls[me])
      modifies this
      ensures Valid() && me in s.calls && Inv(g, s) && SameRequest(old(s.calls[me]), s.calls[me]) && Unanswered(s.calls[me])
      ensures if signed then s.calls[me].pc.Nonced? else s.calls[me].pc.Returned? && me !in s.history.dispatched
      ensures old(log) <= log && Was(g, log, at)
      ensures var next := NextNonce(at.nonces, KeyOf(s.calls[me].effect), clock);
        (signed <==> next < NonceLimit && signs) && (signed ==> s.calls[me].nonce == Some(next))
    {
      hide Run, Inv, Was, NextNonce;
      Pause(me);
      at := s;
      ghost var past := log;
      Do(Reserve(me, clock));
      WasHere(g, past, at, log);
      past := log;
      signed := s.calls[me].pc.Nonced? && signs;
      if !signed {
        FailBeforeSending(me, saved);
      }
      WasStill(g, past, log, at);
      ReachableInv(g, s);
    }

    /** Signing failed, or no nonce was left: the record fails, as far as that can be saved. */
    method FailBeforeSending(me: CallId, saved: bool)
      requires Valid() && me in s.calls && Unanswered(s.calls[me])
      requires s.calls[me].pc.Nonced? || s.calls[me].pc == Closing(FailedResult)
      modifies this
      ensures Valid() && me in s.calls && SameRequest(old(s.calls[me]), s.calls[me]) && Unanswered(s.calls[me])
      ensures s.calls[me].pc.Returned? && me !in s.history.dispatched && old(log) <= log
    {
      hide Run, Inv;
      if s.calls[me].pc.Nonced? {
        Pause(me);
        Do(FailSigning(me));
      }
      Pause(me);
      InvCall(g, s, me);
      NotDispatched(g, s, me);
      Do(Close(me, saved));
    }

    /** The transport loop, and what its outcome makes of the approval record. */
    method DispatchAndSettle(me: CallId, retries: nat, answers: nat -> Reply, confirmed: bool, saved: bool)
      returns (r: SendResult)
      requires Valid() && At(s, me, Nonced)
      modifies this
      ensures Valid() && me in s.calls && Inv(g, s) && s.calls[me].pc.Returned? && me in s.history.dispatched
      ensures SameRequest(old(s.calls[me]), s.calls[me])
      ensures Complete(s.calls[me].replies, retries) && forall i | 0 <= i < |s.calls[me].replies| :: s.calls[me].replies[i] == answers(i)
      ensures s.calls[me].id in s.records && s.calls[me].outcome.Some?
      ensures r.Delivered? <==> s.calls[me].outcome == Some(Parsed) && confirmed
      ensures r.RefusedByServer? <==> s.calls[me].outcome == Some(Refused)
      ensures r.Delivered? || r.RefusedByServer? || r.OutcomeUnknown?
      ensures Told(s.calls[me], r, retries, answers, confirmed)
      ensures old(log) <= log && s.calls[me].nonce == old(s.calls[me].nonce)
      ensures s.records[s.calls[me].id].status ==
        if r.Delivered? then Confirmed
        else if !saved then Executing
        else if r.RefusedByServer? then FailedResult else AmbiguousResult
    {
      hide Run, Inv, Complete, Justified;
      var outcome := Transmit(me, retries, answers);
      Pause(me);
      SpentIsExecuting(g, s, me);
      Do(Settle(me, confirmed));
      r := match outcome case Refused => RefusedByServer case Unknown => OutcomeUnknown
           case Parsed => if confirmed then Delivered else OutcomeUnknown;
      if !r.Delivered? {
        CloseSpent(me, saved);
      }
      ConclusionIsTold(s.calls[me], r, retries, answers, confirmed, outcome);
      ReachableInv(g, s);
    }

    method CloseSpent(me: CallId, saved: bool)
      requires Valid() && me in s.calls && s.calls[me].pc.Closing?
      modifies this
      ensures Valid() && me in s.calls && s.calls[me] == old(s.calls[me]).(pc := Returned) && old(log) <= log
      ensures me in s.history.dispatched <==> me in old(s.history.dispatched)
      ensures s.calls[me].id in s.records
      ensures s.records[s.calls[me].id].status == if saved then old(s.calls[me].pc.status) else Executing
    {
      hide Run, Inv;
      Pause(me);
      SpentIsExecuting(g, s, me);
      Do(Close(me, saved));
    }

    /** Everything between the decision to dispatch and the transport's conclusion. */
    method Transmit(me: CallId, retries: nat, answers: nat -> Reply) returns (outcome: Outcome)
      requires Valid() && At(s, me, Nonced)
      modifies this
      ensures Valid() && me in s.calls && me in s.history.dispatched && s.calls[me].pc.Answered?
      ensures SameRequest(old(s.calls[me]), s.calls[me]) && s.calls[me].nonce == old(s.calls[me].nonce)
      ensures s.calls[me].outcome == Some(outcome) && Justified(outcome, s.calls[me].replies)
      ensures Complete(s.calls[me].replies, retries) && forall i | 0 <= i < |s.calls[me].replies| :: s.calls[me].replies[i] == answers(i)
      ensures old(log) <= log
    {
      hide Run, Inv;
      Pause(me);
      InvCall(g, s, me);
      Do(Dispatch(me));
      Pause(me);
      var posts, replies;
      outcome, posts, replies := SendSignedMessage(EnvelopeOf(g, s.calls[me]), retries, answers);
      Do(Answer(me, outcome, replies));
    }

    /**
     `signs`, `confirmed` and `saved` say whether signing and the two writes of the outcome succeed; `asking`, `spending`
     and `reserving` are what the shared stores held at the three moments that decide.
     */
    method SendSigned(me: CallId, name: string, effect: Effect, text: Text, retries: nat, answers: nat -> Reply,
                      clock: nat, signs: bool, confirmed: bool, saved: bool)
      returns (r: SendResult, ghost asking: State, ghost spending: State, ghost reserving: State)
      requires Valid() && me !in s.calls && effect.payload == g.clean(text)
      modifies this
      ensures Valid() && me in s.calls && s.calls[me].id == ActionId(effect.alias, name) && s.calls[me].effect == effect
      ensures |s.calls[me].replies| <= retries + 1
      ensures Sound(s, me, r)
      ensures Was(g, log, asking) && Was(g, log, spending) && Was(g, log, reserving)
      ensures Decided(s, me, r, asking, spending, reserving, clock, signs)
      ensures me in s.history.dispatched ==> Told(s.calls[me], r, retries, answers, confirmed)
    {
      hide Run, Inv, Complete, Sound, Was, Told, NextNonce;
      Begin(me, name, effect, text);
      r := NotSent;
      var spent;
      spent, asking, spending := Consume(me);
      reserving := spending;
      if !spent {
        r := if s.calls[me].pc.NeedsApproval? then NotApproved else NotSent;
        UnsentIsSound(s, me, r);
        return;
      }
      ghost var past := log;
      var signed;
      signed, reserving := ReserveAndSign(me, clock, signs, saved);
      WasStill(g, past, log, asking);
      WasStill(g, past, log, spending);
      if !signed {
        UnsentIsSound(s, me, r);
        return;
      }
      past := log;
      r := DispatchAndSettle(me, retries, answers, confirmed, saved);
      WasStill(g, past, log, asking);
      WasStill(g, past, log, spending);
      WasStill(g, past, log, reserving);
      SettledIsSound(g, s, me, r);
      CompleteIsShort(s.calls[me].replies, retries);
    }
  }

  /** The shared stores were in this state at some point of what has happened. */
  ghost predicate Was(g: Setting, log: seq<Action>, at: State) {
    exists past :: past <= log && Run(g, Initial, past, at)
  }

  lemma {:induction false} WasHere(g: Setting, past: seq<Action>, at: State, log: seq<Action>)
    requires Run(g, Initial, past, at) && past <= log
    ensures Was(g, log, at)
  {
    hide Run;
  }

  lemma WasStill(g: Setting, before: seq<Action>, log: seq<Action>, at: State)
    requires Was(g, before, at) && before <= log
    ensures Was(g, log, at)
  {
    hide Run;
    var past :| past <= before && Run(g, Initial, past, at);
    assert past <= log;
  }

  /** No record is there yet, or one of exactly this effect. */
  predicate Proposable(s: State, id: ActionId, effect: Effect) {
    id in s.records ==> s.records[id].effect == effect
  }

  predicate HasStatus(s: State, id: ActionId, effect: Effect, status: Status) {
    id in s.records && s.records[id] == Approval(effect, status)
  }

  /**
   A call dispatches exactly when its record fits, is approved when it is spent, a nonce is left, and it signs; it is told
   to ask the operator exactly when the record is only requested; otherwise it is told that nothing was sent.
   */
  ghost predicate Decided(s: State, me: CallId, r: SendResult, asking: State, spending: State, reserving: State, clock: nat, signs: bool)
    requires me in s.calls
  {
    var id, effect := s.calls[me].id, s.calls[me].effect;
    var next := NextNonce(reserving.nonces, KeyOf(effect), clock);
    var fits := Proposable(asking, id, effect);
    var sends := fits && HasStatus(spending, id, effect, Approved) && next < NonceLimit && signs;
    && (me in s.history.dispatched <==> sends) && (sends ==> s.calls[me].nonce == Some(next))
    && (r.NotApproved? <==> fits && HasStatus(spending, id, effect, Requested))
    && (r.NotSent? <==> !sends && !r.NotApproved?)
  }

  lemma ConclusionIsTold(call: Call, r: SendResult, retries: nat, answers: nat -> Reply, confirmed: bool, outcome: Outcome)
    requires Complete(call.replies, retries) && forall i | 0 <= i < |call.replies| :: call.replies[i] == answers(i)
    requires Justified(outcome, call.replies)
    requires r == match outcome case Refused => RefusedByServer case Unknown => OutcomeUnknown
             case Parsed => if confirmed then Delivered else OutcomeUnknown
    ensures Told(call, r, retries, answers, confirmed)
  {
    assert call.replies[|call.replies| - 1] in call.replies;
  }

  /** After a dispatch the replies decide, and whether a delivery could be confirmed. */
  ghost predicate Told(call: Call, r: SendResult, retries: nat, answers: nat -> Reply, confirmed: bool) {
    && Complete(call.replies, retries) && (forall i | 0 <= i < |call.replies| :: call.replies[i] == answers(i))
    && var last := call.replies[|call.replies| - 1];
    && (r.Delivered? <==> Success(last) && confirmed)
    && (r.RefusedByServer? <==> ClientError(last))
    && (r.OutcomeUnknown? <==> !ClientError(last) && !(Success(last) && confirmed))
  }

  /** What the caller is told, the record and the replies agree. */
  ghost predicate Sound(s: State, me: CallId, r: SendResult) {
    && me in s.calls
    && var call := s.calls[me];
    && (r.NotApproved? || r.NotSent? <==> me !in s.history.dispatched)
    && (me in s.history.dispatched ==>
          && call.id in s.records && s.records[call.id].effect == call.effect && call.replies != []
          && match r
             case Delivered => s.records[call.id].status.Confirmed? && Success(call.replies[|call.replies| - 1])
             case RefusedByServer =>
               && (s.records[call.id].status.FailedResult? || s.records[call.id].status.Executing?)
               && forall x | x in call.replies :: ClientError(x)
             case _ => s.records[call.id].status.AmbiguousResult? || s.records[call.id].status.Executing?)
  }

  lemma UnsentIsSound(s: State, me: CallId, r: SendResult)
    requires me in s.calls && me !in s.history.dispatched && (r.NotApproved? || r.NotSent?)
    ensures Sound(s, me, r)
  {
  }

  lemma CompleteIsShort(replies: seq<Reply>, retries: nat)
    requires Complete(replies, retries)
    ensures |replies| <= retries + 1
  {
  }

  lemma SettledIsSound(g: Setting, s: State, me: CallId, r: SendResult)
    requires Inv(g, s) && me in s.calls && me in s.history.dispatched && s.calls[me].id in s.records
    requires s.calls[me].outcome.Some?
    requires r.Delivered? ==> s.calls[me].outcome == Some(Parsed) && s.records[s.calls[me].id].status.Confirmed?
    requires r.RefusedByServer? ==>
      && s.calls[me].outcome == Some(Refused)
      && (s.records[s.calls[me].id].status.FailedResult? || s.records[s.calls[me].id].status.Executing?)
    requires r.OutcomeUnknown? ==> s.records[s.calls[me].id].status.AmbiguousResult? || s.records[s.calls[me].id].status.Executing?
    requires !r.NotApproved? && !r.NotSent?
    ensures Sound(s, me, r)
  {
    hide Inv;
    InvCall(g, s, me);
  }

  lemma NotDispatched(g: Setting, s: State, c: CallId)
    requires OwnFits(g, s, c) && s.calls[c].outcome.None? && s.calls[c].pc.Closing?
    ensures s.calls[c].pc == Closing(FailedResult) ==> c !in s.history.dispatched
  {
  }

  lemma SpentIsExecuting(g: Setting, s: State, c: CallId)
    requires Inv(g, s) && c in s.calls && HasSpent(s.calls[c].pc)
    ensures s.calls[c].id in s.records && s.records[s.calls[c].id].status.Executing?
  {
    InvCall(g, s, c);
    hide Inv;
  }
}
