/** What the network answered and what was read decide what becomes of every effect, over every run. */
module SessionAnswers {
  import opened Wrappers
  import opened Sessions
  import opened SessionSafety
  import opened SessionSteps
  import opened SessionRuns

  // ----------------------------------------------------- what one action does to one effect

  /** The only ways in which an effect ever moves. */
  ghost predicate EffectMoves(m: Memory, a: Action, id: EffectId, e: Effect, f: Effect) {
    var mine := !m.send.Idle? && m.send.effect == id;
    || f == e
    || (a.Intend? && mine && e.status.Prepared? && f == e.(status := Sending, nonce := Some(a.nonce)))
    || (a.Receipt? && mine && m.send.InFlight? && m.send.reply == Posted(a.seqNo) && e.status.Sending?
        && f == e.(status := Sent, seqNo := Some(a.seqNo)))
    || (f == e.(status := Failed) && (e.status.Prepared? || (mine && m.send.InFlight? && m.send.reply.RejectedPost?)))
    || (f == e.(status := Ambiguous) && !e.status.Received?)
    || (f == e.(status := Receiving) && e.status.Sent?)
    || ((a.TakeProposal? || a.TakeResult?) && a.effect == id && IsMail(e, a.mail) && e.status.Receiving? && f == e.(status := Received))
  }

  predicate LeavesEffects(a: Action) {
    && !a.RestoreTasks? && !a.Prepare? && !a.Intend? && !a.Receipt? && !a.NoReceipt? && !a.DoubtReceipt? && !a.EndSend?
    && !a.StartReceive? && !a.TakeProposal? && !a.TakeResult? && !a.LoseReceive? && !a.Stop?
  }

  lemma QuietActions(p: Policy, m: Memory, a: Action)
    requires MemoryEnabled(p, m, a) && LeavesEffects(a)
    ensures ApplyMemory(p, m, a).data.effects == m.data.effects
  {
    hide NodeAuthorized, AllReady, DelegateEnabled, ScopeAllowed, EffectAuthorized, CompleteJobs;
    SameEffects(m.data);
  }

  ghost predicate AllMove(m: Memory, a: Action, t: Session) {
    && (forall id | id in m.data.effects :: id in t.effects && EffectMoves(m, a, id, m.data.effects[id], t.effects[id]))
    && (forall id | id in t.effects && id !in m.data.effects :: t.effects[id].status.Prepared? && t.effects[id].seqNo.None?)
  }

  lemma SendActions(p: Policy, m: Memory, a: Action)
    requires MemoryEnabled(p, m, a) && (a.Prepare? || a.Intend? || a.Receipt?)
    ensures AllMove(m, a, ApplyMemory(p, m, a).data)
  {
    hide EffectAuthorized, AllReady, TextFor, IsMail;
  }

  lemma EndActions(p: Policy, m: Memory, a: Action)
    requires MemoryEnabled(p, m, a) && (a.NoReceipt? || a.DoubtReceipt? || a.EndSend?)
    ensures AllMove(m, a, ApplyMemory(p, m, a).data)
  {
    hide EffectAuthorized, AllReady, TextFor, IsMail;
  }

  lemma TakeActions(p: Policy, m: Memory, a: Action)
    requires MemoryEnabled(p, m, a) && (a.TakeProposal? || a.TakeResult?)
    ensures AllMove(m, a, ApplyMemory(p, m, a).data)
  {
    hide EffectAuthorized, AllReady, TextFor, IsMail, RuntimeTaskOf;
  }

  lemma ReadActions(p: Policy, m: Memory, a: Action)
    requires MemoryEnabled(p, m, a) && (a.StartReceive? || a.LoseReceive? || a.Stop?)
    ensures AllMove(m, a, ApplyMemory(p, m, a).data)
  {
    hide EffectAuthorized, AllReady, TextFor, IsMail, RuntimeTaskOf;
  }

  lemma RestoreAction(p: Policy, m: Memory, a: Action)
    requires MemoryEnabled(p, m, a) && a.RestoreTasks?
    ensures AllMove(m, a, ApplyMemory(p, m, a).data)
  {
    hide RestoredNode, RestoredJob, RestoreBlocks, Restore;
    SameEffects(m.data);
  }

  lemma ActionMovesEffects(p: Policy, m: Memory, a: Action)
    requires MemoryEnabled(p, m, a)
    ensures AllMove(m, a, ApplyMemory(p, m, a).data)
  {
    hide MemoryEnabled, ApplyMemory;
    if LeavesEffects(a) {
      QuietActions(p, m, a);
    } else if a.RestoreTasks? {
      RestoreAction(p, m, a);
    } else if a.TakeProposal? || a.TakeResult? {
      TakeActions(p, m, a);
    } else if a.StartReceive? || a.LoseReceive? || a.Stop? {
      ReadActions(p, m, a);
    } else if a.NoReceipt? || a.DoubtReceipt? || a.EndSend? {
      EndActions(p, m, a);
    } else {
      SendActions(p, m, a);
    }
  }

  lemma SameEffects(s: Session)
    ensures CompleteJobs(s).effects == s.effects
    ensures forall fates :: Restore(s, fates).effects == map e | e in s.effects :: RestoredEffect(s.effects[e])
  {
    hide RestoredNode, RestoredJob, Finished;
  }

  // ------------------------------------------------------------------------ invariant

  ghost predicate EffectTold(w: World, id: EffectId, e: Effect) {
    && (e.seqNo.Some? ==> id in w.answers && w.answers[id] == Posted(e.seqNo.value))
    && (e.status.Sent? || e.status.Receiving? || e.status.Received? ==> e.seqNo.Some?)
    && (e.status.Failed? && id in w.answers ==> w.answers[id] == RejectedPost)
    && (e.status.Prepared? ==> id !in w.answers && e.seqNo.None?)
    && (e.status.Received? ==> id in w.taken && IsMail(e, w.taken[id]))
  }

  ghost predicate SendTold(w: World, m: Memory) {
    && (m.send.Intended? ==>
          && m.send.effect in m.data.effects && m.send.effect !in w.answers
          && var e := m.data.effects[m.send.effect];
          e.seqNo.None? && (e.status.Sending? || e.status.Ambiguous?))
    && (m.send.InFlight? ==> m.send.effect in w.answers && w.answers[m.send.effect] == m.send.reply)
  }

  ghost predicate Told(w: World) {
    && w.answers.Keys <= w.disk.effects.Keys && w.answers.Keys == (set id | id in w.posts)
    && (forall id | id in w.disk.effects :: EffectTold(w, id, w.disk.effects[id]))
    && (w.memory.Some? ==>
          && SendTold(w, w.memory.value)
          && forall id | id in w.memory.value.data.effects :: EffectTold(w, id, w.memory.value.data.effects[id]))
  }

  lemma MovedIsTold(w: World, m: Memory, a: Action, id: EffectId, e: Effect, f: Effect)
    requires SendTold(w, m) && EffectTold(w, id, e) && EffectMoves(m, a, id, e, f)
    requires (a.TakeProposal? || a.TakeResult?) && a.effect == id ==> e.status.Receiving?
    ensures EffectTold(w.(taken := Taken(w.taken, a)), id, f)
  {
  }

  /** A message taken for one effect is no matter of any effect that was received before. */
  lemma OthersStayTold(w: World, a: Action, id: EffectId, e: Effect)
    requires EffectTold(w, id, e)
    requires (a.TakeProposal? || a.TakeResult?) && a.effect == id ==> !e.status.Received?
    ensures EffectTold(w.(taken := Taken(w.taken, a)), id, e)
  {
  }

  lemma TakenIsUnreceived(p: Policy, w: World, a: Action)
    requires WorldInv(p, w) && w.memory.Some? && MemoryEnabled(p, w.memory.value, a) && (a.TakeProposal? || a.TakeResult?)
    ensures a.effect in w.disk.effects ==> !w.disk.effects[a.effect].status.Received?
  {
    hide Inv, Later, EffectAuthorized, TextFor, SendFits, PostsFit, IsMail;
    if a.effect in w.disk.effects {
      KeptGives(p, w.disk, w.memory.value.data);
      LaterEffect(w.disk, w.memory.value.data, a.effect);
    }
  }

  lemma SendStaysTold(p: Policy, w: World, a: Action)
    requires w.memory.Some? && MemoryEnabled(p, w.memory.value, a) && Told(w)
    ensures SendTold(w, ApplyMemory(p, w.memory.value, a))
  {
    hide ApplyMemory, MemoryEnabled;
    var m, n := w.memory.value, ApplyMemory(p, w.memory.value, a);
    SendMoves(p, m, a);
    ActionMovesEffects(p, m, a);
    SendNeverFlies(p, m, a);
    if n.send.Intended? && n.send == m.send {
      assert EffectMoves(m, a, m.send.effect, m.data.effects[m.send.effect], n.data.effects[m.send.effect]);
    } else if n.send.Intended? {
      assert EffectTold(w, m.send.effect, m.data.effects[m.send.effect]);
      IntendSends(p, m, a);
    }
  }

  lemma SendNeverFlies(p: Policy, m: Memory, a: Action)
    requires MemoryEnabled(p, m, a)
    ensures ApplyMemory(p, m, a).send.InFlight? ==> ApplyMemory(p, m, a).send == m.send
  {
    hide BlockJob, Doubt, BeginReceive, CompleteJobs, Restore, NodeAuthorized, EffectAuthorized, AllReady, DelegateEnabled, ScopeAllowed;
  }

  lemma IntendSends(p: Policy, m: Memory, a: Action)
    requires MemoryEnabled(p, m, a) && a.Intend?
    ensures var n := ApplyMemory(p, m, a);
      n.send == Intended(m.send.effect) && m.send.effect in n.data.effects
      && n.data.effects[m.send.effect] == m.data.effects[m.send.effect].(status := Sending, nonce := Some(a.nonce))
  {
    hide EffectAuthorized;
  }

  lemma DoApplies(p: Policy, w: World, a: Action)
    requires Enabled(p, w, Do(a))
    ensures w.memory.Some? && MemoryEnabled(p, w.memory.value, a)
    ensures Apply(p, w, Do(a)) == w.(memory := Some(ApplyMemory(p, w.memory.value, a)), taken := Taken(w.taken, a))
  {
    hide MemoryEnabled, ApplyMemory;
  }

  lemma TakenIsReceiving(p: Policy, m: Memory, a: Action)
    requires MemoryEnabled(p, m, a) && (a.TakeProposal? || a.TakeResult?)
    ensures a.effect in m.data.effects && m.data.effects[a.effect].status.Receiving?
  {
    hide EffectAuthorized, TextFor, IsMail;
  }

  lemma DoTold(p: Policy, w: World, a: Action)
    requires WorldInv(p, w) && Told(w) && Enabled(p, w, Do(a))
    ensures Told(Apply(p, w, Do(a)))
  {
    hide Enabled, Apply, ApplyMemory, MemoryEnabled, WorldInv, EffectTold, EffectMoves, Taken, SendTold;
    DoApplies(p, w, a);
    var m := w.memory.value;
    var v, n := Apply(p, w, Do(a)), ApplyMemory(p, m, a);
    ActionMovesEffects(p, m, a);
    SendStaysTold(p, w, a);
    SendToldApart(w, v, n);
    if a.TakeProposal? || a.TakeResult? {
      TakenIsUnreceived(p, w, a);
      TakenIsReceiving(p, m, a);
    }
    MemoryHasPosts(p, w);
    forall id | id in n.data.effects
      ensures EffectTold(v, id, n.data.effects[id])
    {
      if id in m.data.effects {
        MovedIsTold(w, m, a, id, m.data.effects[id], n.data.effects[id]);
        ToldApart(w.(taken := Taken(w.taken, a)), v, id, n.data.effects[id]);
      } else {
        PreparedIsTold(v, id, n.data.effects[id]);
      }
    }
    forall id | id in w.disk.effects
      ensures EffectTold(v, id, w.disk.effects[id])
    {
      OthersStayTold(w, a, id, w.disk.effects[id]);
      ToldApart(w.(taken := Taken(w.taken, a)), v, id, w.disk.effects[id]);
    }
  }

  lemma ToldApart(w: World, v: World, id: EffectId, e: Effect)
    requires v.answers == w.answers && v.taken == w.taken && EffectTold(w, id, e)
    ensures EffectTold(v, id, e)
  {
  }

  lemma SendToldApart(w: World, v: World, m: Memory)
    requires v.answers == w.answers && SendTold(w, m)
    ensures SendTold(v, m)
  {
  }

  lemma PreparedIsTold(w: World, id: EffectId, e: Effect)
    requires e.status.Prepared? && e.seqNo.None? && id !in w.answers
    ensures EffectTold(w, id, e)
  {
  }

  lemma MemoryHasPosts(p: Policy, w: World)
    requires WorldInv(p, w) && w.memory.Some? && Told(w)
    ensures w.answers.Keys <= w.memory.value.data.effects.Keys
  {
    hide Inv, Later, SendFits, PostsFit, EffectTold, SendTold;
    KeptGives(p, w.disk, w.memory.value.data);
    forall id | id in w.answers
      ensures id in w.memory.value.data.effects
    {
      LaterEffect(w.disk, w.memory.value.data, id);
    }
  }

  lemma PostTold(p: Policy, w: World, reply: Reply)
    requires Told(w) && Enabled(p, w, Post(reply))
    ensures Told(Apply(p, w, Post(reply)))
  {
    hide EffectAuthorized;
  }

  lemma StepTold(p: Policy, w: World, x: Step)
    requires WorldInv(p, w) && Told(w) && Enabled(p, w, x)
    ensures Told(Apply(p, w, x))
  {
    hide WorldInv, Told, MemoryEnabled, ApplyMemory, EffectAuthorized;
    match x
    case Crash => OnlyDiskTold(w, w.(memory := None));
    case Reopen => OnlyDiskTold(w, w.(memory := Some(Reopened(w.disk))));
    case Save =>
      MemoryHasPosts(p, w);
      SavedTold(w);
    case Post(reply) => PostTold(p, w, reply);
    case Do(a) => DoTold(p, w, a);
  }

  lemma OnlyDiskTold(w: World, v: World)
    requires Told(w) && (v == w.(memory := None) || v == w.(memory := Some(Reopened(w.disk))))
    ensures Told(v)
  {
  }

  lemma SavedTold(w: World)
    requires Told(w) && w.memory.Some? && w.answers.Keys <= w.memory.value.data.effects.Keys
    ensures Told(w.(disk := w.memory.value.data))
  {
  }

  lemma {:induction false} RunTold(p: Policy, w: World, log: seq<Step>, v: World)
    requires WorldInv(p, w) && Told(w) && Run(p, w, log, v)
    ensures Told(v)
    decreases |log|
  {
    hide WorldInv, Told, Enabled, Apply;
    if log != [] {
      StepTold(p, w, log[0]);
      StepKept(p, w, log[0]);
      RunTold(p, Apply(p, w, log[0]), log[1..], v);
    }
  }

  // ------------------------------------------------------------------------- theorem

  /**
   Whatever steps, crashes and reopens: an effect that was posted is failed only if the network refused it; it has
   a sequence number only if its receipt gave it that one; and it is received only from its own message, by its own
   reader, with that number and its nonce.
   */
  lemma EffectsEndAsAnswered(p: Policy, w: World, s: Session, id: EffectId)
    requires Reachable(p, w) && Held(w, s) && id in s.effects
    ensures var e := s.effects[id];
      && (id in w.answers <==> id in w.posts)
      && (e.status.Failed? && id in w.posts ==> w.answers[id] == RejectedPost)
      && (e.seqNo.Some? ==> id in w.posts && w.answers[id] == Posted(e.seqNo.value))
      && (e.status.Sent? || e.status.Receiving? || e.status.Received? ==> e.seqNo.Some?)
      && (e.status.Prepared? ==> id !in w.posts)
      && (e.status.Received? ==>
            && id in w.taken
            && var mail := w.taken[id];
            && mail.reader == e.target && mail.source == e.source && mail.text == e.text
            && e.seqNo == Some(mail.seqNo) && e.nonce == Some(mail.nonce))
  {
    var log :| Run(p, Initial, log, w);
    InitialInv(p);
    InitialTold();
    RunTold(p, Initial, log, w);
    hide Run, WorldInv, Reachable;
    assert EffectTold(w, id, s.effects[id]);
  }

  lemma InitialTold()
    ensures Told(Initial)
  {
  }

  /** A posted effect that the network refused, or did not answer, is never taken for sent; one with a receipt never for failed. */
  lemma NothingIsMistaken(p: Policy, w: World, s: Session, id: EffectId)
    requires Reachable(p, w) && Held(w, s) && id in s.effects && id in w.posts
    ensures id in w.answers
    ensures !w.answers[id].Posted? ==>
      s.effects[id].status.Sending? || s.effects[id].status.Ambiguous? || s.effects[id].status.Failed?
    ensures !w.answers[id].RejectedPost? ==> !s.effects[id].status.Failed?
    ensures !s.effects[id].status.Prepared?
  {
    hide Reachable, Held;
    EffectsEndAsAnswered(p, w, s, id);
  }
}
