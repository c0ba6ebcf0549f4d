/** Peers, a network and a runtime that answer bring every open job to its end, one stage at a time. */
module SupervisorProgress {
  import opened Wrappers
  import opened Sessions
  import opened SessionSafety
  import opened SessionSteps
  import opened SessionRuns
  import opened Supervisor

  // --------------------------------------------------------------------------- stages

  predicate SmoothNode(s: Session, id: NodeId)
    requires id in s.nodes
  {
    var v := s.nodes[id];
    && (v.compute.Accepted? || v.compute.ResultReady? || (v.compute.Planned? && id.Child?))
    && !v.delivery.NeedsOperator?
    && (EffectId(id, Result) in s.effects ==> !v.delivery.Undelivered?)
  }

  predicate SmoothEffect(e: Effect) {
    (e.status.Sent? || e.status.Received?) && e.nonce.Some? && e.seqNo.Some?
  }

  /** Nothing failed and nothing is in doubt: every job is open, every message sent or received, every node waiting, accepted or done. */
  ghost predicate Smooth(s: Session) {
    && s.lifecycle.Active?
    && (forall j | j in s.jobs :: !s.jobs[j].status.Blocked?)
    && (forall e | e in s.effects :: SmoothEffect(s.effects[e]))
    && (forall id | id in s.nodes :: SmoothNode(s, id))
  }

  /** How far a node has come: to be sent, sent, accepted, computed, answered, delivered. */
  function Stage(s: Session, id: NodeId): (n: nat)
    requires id in s.nodes
    ensures n <= 5
  {
    var v := s.nodes[id];
    if v.compute.Planned? then if EffectId(id, Proposal) in s.effects then 1 else 0
    else if !v.compute.ResultReady? then 2
    else if v.delivery.Undelivered? then 3 else if v.delivery.ResultSent? then 4 else 5
  }

  // ------------------------------------------------------------------ quiet means done

  lemma NodeGives(p: Policy, s: Session, id: NodeId)
    requires Inv(p, s) && id in s.nodes
    ensures NodeFits(p, s, id) && Progressed(s, id)
  {
    hide NodeFits, Progressed;
  }

  lemma EffectGives(p: Policy, s: Session, e: EffectId)
    requires Inv(p, s) && e in s.effects
    ensures EffectFits(s, e) && e.node in s.nodes && s.effects[e].target == NewEffect(s, e).target
  {
    hide NodeFits, Progressed, TextFor;
  }

  /** A sent message is something for its target to read. */
  lemma SentIsIncoming(p: Policy, s: Session, e: EffectId)
    requires Inv(p, s) && Smooth(s) && e in s.effects && s.effects[e].status.Sent?
    ensures Incoming(s, s.effects[e].target)
  {
    hide Inv, EffectFits, Progressed, TextFor, WorkloadAllowed, DelegationAllowed;
    EffectGives(p, s, e);
    NodeGives(p, s, e.node);
    assert OpenJob(s, e.node);
  }

  /** With nothing to read and no node to advance, a node whose dependencies are done is done. */
  lemma {:induction false} NodeIsDone(p: Policy, s: Session, id: NodeId)
    requires Inv(p, s) && Smooth(s) && id in s.nodes && forall b: Alias :: !HasWork(s, {}, b)
    ensures Ready(s, id)
    decreases id
  {
    hide Inv, EffectFits, WorkloadAllowed, DelegationAllowed, Incoming, Smooth;
    NodeGives(p, s, id);
    SmoothGives(s, id);
    var v := s.nodes[id];
    assert !HasWork(s, {}, v.alias) && !Eligible(s, v.alias, id);
    if id.Child? {
      forall d | d in id.dependencies
        ensures Ready(s, d)
      {
        NodeIsDone(p, s, d);
      }
      if EffectId(id, Result) in s.effects {
        IdleIsReceived(p, s, EffectId(id, Result));
      }
    }
  }

  lemma SmoothGives(s: Session, id: NodeId)
    requires Smooth(s) && id in s.nodes
    ensures SmoothNode(s, id) && (s.nodes[id].job in s.jobs ==> OpenJob(s, id))
  {
  }

  lemma IdleIsReceived(p: Policy, s: Session, e: EffectId)
    requires Inv(p, s) && Smooth(s) && e in s.effects && !HasWork(s, {}, s.effects[e].target)
    ensures s.effects[e].status.Received?
  {
    hide Inv, Incoming;
    if s.effects[e].status.Sent? {
      SentIsIncoming(p, s, e);
    }
  }

  /** When no peer has any work, every task is done and delivered, and every job whose flow has run is finished. */
  lemma QuietMeansDone(p: Policy, s: Session, turn: Place)
    requires Inv(p, s) && Smooth(s) && Chosen(s, {}, turn, Nothing)
    ensures forall id | id in s.nodes :: Ready(s, id) && Stage(s, id) == 5
    ensures forall j | j in s.jobs && (s.jobs[j].flow.Some? ==> |s.jobs[j].tasks| == |s.jobs[j].flow.value|) :: Finished(s, s.jobs[j])
  {
    hide HasWork, NodeFits, Progressed, EffectFits, SmoothNode;
    forall id | id in s.nodes
      ensures Ready(s, id)
    {
      NodeIsDone(p, s, id);
    }
    forall j | j in s.jobs
      ensures JobFits(p, s, j)
    {
    }
  }

  // ------------------------------------------------------------------ one node goes on

  /** A send in which nothing goes wrong. */
  predicate Clean(c: Course) {
    c.reachesDispatch && c.liveAtIntent && c.liveAtPost && c.reply.Posted? && c.receiptSaved && c.taskSucceeds
  }

  /** Budget, authority and the room for what the node does next. */
  predicate MayGoOn(p: Policy, m: Memory, id: NodeId)
    requires id in m.data.nodes
  {
    var s := m.data;
    && NodeAuthorized(p, s, s.nodes[id])
    && s.budgets.inference < p.limits.inference && s.budgets.outbound < p.limits.outbound
    && (Sendable(s, NextEffect(s, id)) ==>
          var e := NewEffect(s, NextEffect(s, id));
          e.target !in m.lost && EffectAuthorized(p, s, NextEffect(s, id), e))
  }

  /** A chosen node runs when it was accepted; otherwise its next message, which nobody prepared before, can be sent. */
  lemma ChosenCanGoOn(p: Policy, s: Session, due: set<Alias>, turn: Place, id: NodeId)
    requires Inv(p, s) && Smooth(s) && Chosen(s, due, turn, Advance(id))
    ensures id in s.nodes && (Runnable(s, id) <==> s.nodes[id].compute.Accepted?)
    ensures !s.nodes[id].compute.Accepted? ==>
      && Sendable(s, NextEffect(s, id)) && NextEffect(s, id) !in s.effects
      && (NextEffect(s, id).kind.Proposal? <==> s.nodes[id].compute.Planned?)
  {
    hide Inv, EffectFits, WorkloadAllowed, DelegationAllowed, Incoming, Smooth, FirstWithWork, TextFor, AllReady;
    NodeGives(p, s, id);
    SmoothGives(s, id);
    if id.Child? {
      ParentIsThere(p, s, id);
      if s.nodes[id].compute.Planned? && EffectId(id, Proposal) in s.effects {
        ProposalIsComing(p, s, id);
      }
    }
  }

  lemma ParentIsThere(p: Policy, s: Session, id: NodeId)
    requires Inv(p, s) && id in s.nodes && id.Child?
    ensures s.nodes[id].parent == Some(id.parent) && id.parent in s.nodes
  {
    hide Progressed, EffectFits, WorkloadAllowed, DelegationAllowed;
    assert NodeFits(p, s, id);
  }

  lemma ProposalIsComing(p: Policy, s: Session, id: NodeId)
    requires Inv(p, s) && Smooth(s) && id in s.nodes && s.nodes[id].compute.Planned? && EffectId(id, Proposal) in s.effects && id.Child?
    ensures Incoming(s, s.nodes[id].alias)
  {
    hide Inv, Incoming, AllReady, DelegationAllowed, WorkloadAllowed, TextFor;
    NodeGives(p, s, id);
    EffectGives(p, s, EffectId(id, Proposal));
    SentIsIncoming(p, s, EffectId(id, Proposal));
  }

  /** What a clean send makes of a session: the message sent with its number, and for a result the node answered. */
  function AfterSend(s: Session, id: EffectId, c: Course): Session
    requires Sendable(s, id) && c.reply.Posted?
  {
    var e := NewEffect(s, id).(status := Sent, nonce := Some(c.nonce), seqNo := Some(c.reply.seqNo));
    s.(effects := s.effects[id := e], budgets := s.budgets.(outbound := s.budgets.outbound + 1),
       nodes := if id.kind.Result? then s.nodes[id.node := s.nodes[id.node].(delivery := ResultSent)] else s.nodes)
  }

  lemma CleanSend(p: Policy, m: Memory, t: Session, id: EffectId, c: Course)
    requires Sendable(m.data, id) && Clean(c) && MemoryEnabled(p, m, Prepare(id)) && EffectEnds(p, m, t, id, true, c)
    ensures t == AfterSend(m.data, id, c)
    ensures !SendThrows(p, m, id, true, c)
  {
    hide NodeAuthorized, PairAllowed, AllReady, TextFor;
    var n := PreparedFor(m, id);
    SameAuthority(p, m.data, id);
    assert MemoryEnabled(p, n, Intend(c.nonce));
    assert Delivers(p, n, c);
    var mid :| SendEnds(p, n, mid, t, c);
    assert mid.effects[id].status.Sent?;
  }

  lemma SameAuthority(p: Policy, s: Session, id: EffectId)
    requires Sendable(s, id) && EffectAuthorized(p, s, id, NewEffect(s, id))
    ensures EffectAuthorized(p, s.(effects := s.effects[id := NewEffect(s, id)]), id, NewEffect(s, id))
  {
    hide WorkloadAllowed, DelegationAllowed, PairAllowed, TextFor;
    var t := s.(effects := s.effects[id := NewEffect(s, id)]);
    assert forall job :: ProposalActive(t, job) == ProposalActive(s, job);
  }

  /** The nodes in `moved` reached a later stage, all others stayed as they were, and nothing went wrong. */
  ghost predicate WentOn(s: Session, t: Session, moved: set<NodeId>) {
    && Smooth(t) && t.nodes.Keys == s.nodes.Keys && t.jobs.Keys == s.jobs.Keys && s.effects.Keys <= t.effects.Keys
    && forall id | id in s.nodes ::
         if id in moved then Stage(t, id) > Stage(s, id) else t.nodes[id] == s.nodes[id] && Stage(t, id) == Stage(s, id)
  }

  /** The nodes that a served choice is to take on. */
  function Moved(s: Session, choice: Choice): set<NodeId> {
    match choice
    case Nothing => {}
    case Advance(id) => {id}
    case Read(alias) => set id | id in SentTo(s, alias) :: id.node
  }

  lemma FinishingWentOn(s: Session, t: Session, moved: set<NodeId>)
    requires WentOn(s, t, moved)
    ensures WentOn(s, CompleteJobs(t), moved)
  {
    hide Finished;
    forall id | id in t.nodes
      ensures SmoothNode(CompleteJobs(t), id)
    {
      assert SmoothNode(t, id);
    }
  }

  lemma ComputedWentOn(s: Session, t: Session, id: NodeId, outcome: Fate)
    requires Smooth(s) && Runnable(s, id) && outcome.Succeeded?
    requires ComputeEnds(SetNode(s, id, s.nodes[id].(compute := Running)), t, id, outcome)
    ensures WentOn(s, t, {id})
  {
    assert t.nodes[id].compute.ResultReady? && t.nodes[id].delivery == s.nodes[id].delivery;
    forall n | n in t.nodes
      ensures SmoothNode(t, n)
    {
      assert SmoothNode(s, n);
    }
  }

  lemma SentWentOn(s: Session, id: EffectId, c: Course)
    requires Smooth(s) && Sendable(s, id) && id !in s.effects && c.reply.Posted? && id.node.Child?
    ensures WentOn(s, AfterSend(s, id, c), {id.node})
  {
    hide AllReady, TextFor;
    var t := AfterSend(s, id, c);
    forall n | n in t.nodes
      ensures SmoothNode(t, n)
    {
      assert SmoothNode(s, n);
    }
  }

  /** Advancing the chosen node, with nothing going wrong, takes it one stage on and leaves all others alone. */
  lemma AdvanceGoesOn(p: Policy, m: Memory, t: Session, due: set<Alias>, turn: Place, id: NodeId, inbox: Inbox, c: Course, outcome: Fate)
    requires Inv(p, m.data) && Smooth(m.data) && m.send.Idle? && Chosen(m.data, due, turn, Advance(id)) && id in m.data.nodes
    requires MayGoOn(p, m, id) && Clean(c) && outcome.Succeeded?
    requires ServeEnds(p, m, t, Advance(id), true, inbox, c, Some(outcome))
    ensures WentOn(m.data, t, Moved(m.data, Advance(id)))
  {
    hide Inv, Smooth, Chosen, NodeAuthorized, EffectAuthorized, ComputeEnds, EffectEnds, WentOn, CompleteJobs, SendThrows, TextFor;
    var s := m.data;
    ChosenCanGoOn(p, s, due, turn, id);
    StaysActive(s);
    var mid :| NodeEnds(p, m, mid, id, true, c, Some(outcome))
      && t == if NodeThrows(p, m, id, true, c, Some(outcome)) then Halt(mid) else CompleteJobs(mid);
    if s.nodes[id].compute.Accepted? {
      ComputedWentOn(s, mid, id, outcome);
    } else {
      CleanSend(p, m, mid, NextEffect(s, id), c);
      SendableIsChild(p, s, NextEffect(s, id));
      SentWentOn(s, NextEffect(s, id), c);
    }
    FinishingWentOn(s, mid, {id});
  }

  lemma StaysActive(s: Session)
    requires Smooth(s)
    ensures s.lifecycle.Active?
  {
  }

  lemma SendableIsChild(p: Policy, s: Session, id: EffectId)
    requires Inv(p, s) && Sendable(s, id)
    ensures id.node.Child?
  {
    hide Inv, Progressed, EffectFits, WorkloadAllowed, DelegationAllowed;
    NodeGives(p, s, id.node);
  }

  // ------------------------------------------------------------------- one read goes on

  /** A node once the messages in `done` were taken: accepted by its own peer, or its result delivered. */
  function TakenNode(s: Session, id: NodeId, done: set<EffectId>): Node
    requires id in s.nodes
  {
    var v, accepted := s.nodes[id], EffectId(id, Proposal) in done;
    v.(compute := if accepted then Accepted else v.compute,
       runtimeTask := if accepted then Some(RuntimeTaskOf(id)) else v.runtimeTask,
       delivery := if EffectId(id, Result) in done then Delivered else v.delivery)
  }

  /** Exactly the messages in `done` were taken. */
  ghost predicate TookAll(s: Session, t: Session, done: set<EffectId>) {
    && t.lifecycle == s.lifecycle && t.jobs == s.jobs && t.effects.Keys == s.effects.Keys && t.nodes.Keys == s.nodes.Keys
    && (forall e | e in s.effects :: t.effects[e] == if e in done then s.effects[e].(status := Received) else s.effects[e])
    && (forall id | id in s.nodes :: t.nodes[id] == TakenNode(s, id, done))
    && (forall i | i in s.intakes :: i in t.intakes && t.intakes[i] == s.intakes[i])
    && forall i | i in t.intakes && i !in s.intakes :: i.OfEffect? && i.effect in done
  }

  /** A sent message that its target may take: numbered, authorized, and not recorded before. */
  predicate MayBeTaken(p: Policy, s: Session, id: EffectId, alias: Alias) {
    && id in s.effects && s.effects[id].target == alias && s.effects[id].nonce.Some? && s.effects[id].seqNo.Some?
    && EffectAuthorized(p, s, id, s.effects[id]) && OfEffect(id) !in s.intakes
  }

  function OwnMail(e: Effect, record: IntakeKey): Message
    requires e.nonce.Some? && e.seqNo.Some?
  {
    FromPeer(e.source, e.text, e.seqNo.value, e.nonce.value, true, true, record)
  }

  lemma AuthorityStays(p: Policy, s: Session, t: Session, done: set<EffectId>, id: EffectId, e: Effect)
    requires TookAll(s, t, done) && EffectAuthorized(p, s, id, e)
    ensures EffectAuthorized(p, t, id, e)
  {
    hide WorkloadAllowed, DelegationAllowed, PairAllowed, RuntimeTaskOf;
    var v := s.nodes[id.node];
    assert t.nodes[id.node] == TakenNode(s, id.node, done);
    assert ProposalActive(s, v.job) ==> ProposalActive(t, v.job);
  }

  lemma TextNamesEffect(p: Policy, s: Session, id: EffectId)
    requires Inv(p, s) && id in s.effects
    ensures EffectOfText(s.effects[id].text) == id && s.effects[id].text == TextFor(s, id)
  {
    hide NodeFits, Progressed;
    assert EffectFits(s, id);
  }

  lemma ReceivingIsPlanned(p: Policy, s: Session, id: EffectId)
    requires Inv(p, s) && id in s.effects && id.kind.Proposal? && !s.effects[id].status.Received?
    ensures id.node in s.nodes && s.nodes[id.node].compute.Planned?
  {
    hide Inv, TextFor, AllReady, WorkloadAllowed, DelegationAllowed;
    EffectGives(p, s, id);
    NodeGives(p, s, id.node);
    assert id == EffectId(id.node, Proposal);
  }

  lemma TakeOne(p: Policy, s: Session, m: Memory, done: set<EffectId>, id: EffectId, alias: Alias, record: IntakeKey)
    requires Inv(p, m.data) && TookAll(s, m.data, done) && id !in done
    requires MayBeTaken(p, s, id, alias) && s.effects[id].status.Receiving?
    ensures var msg := OwnMail(s.effects[id], record); var a := MessageAction(p, m, alias, msg);
      && MessageOk(p, m, alias, msg) && a == Some(TakeAction(id, MailOf(alias, msg)))
      && Inv(p, ApplyMemory(p, m, a.value).data) && TookAll(s, ApplyMemory(p, m, a.value).data, done + {id})
  {
    hide Inv, EffectAuthorized, TextFor, TookAll, EffectOfText, ApplyMemory, Kept;
    var msg := OwnMail(s.effects[id], record);
    var a := TakeAction(id, MailOf(alias, msg));
    TookGives(s, m.data, done, id);
    AuthorityStays(p, s, m.data, done, id, s.effects[id]);
    TextNamesEffect(p, m.data, id);
    if id.kind.Proposal? {
      ReceivingIsPlanned(p, m.data, id);
    }
    assert MemoryEnabled(p, m, a);
    ActionKept(p, m, a);
    KeptGives(p, m.data, ApplyMemory(p, m, a).data);
    TakenIsTook(p, s, m, done, id, MailOf(alias, msg));
  }

  lemma TookGives(s: Session, t: Session, done: set<EffectId>, id: EffectId)
    requires TookAll(s, t, done) && id in s.effects
    ensures id in t.effects && t.effects[id] == if id in done then s.effects[id].(status := Received) else s.effects[id]
  {
  }

  function Taking(v: Node, id: EffectId): Node {
    if id.kind.Proposal? then v.(compute := Accepted, runtimeTask := Some(RuntimeTaskOf(id.node))) else v.(delivery := Delivered)
  }

  lemma TakeApplies(p: Policy, m: Memory, id: EffectId, mail: Mail)
    requires MemoryEnabled(p, m, TakeAction(id, mail))
    ensures id in m.data.effects && id.node in m.data.nodes
    ensures var s, t := m.data, ApplyMemory(p, m, TakeAction(id, mail)).data; var v := s.nodes[id.node];
      && t.lifecycle == s.lifecycle && t.jobs == s.jobs && t.effects == s.effects[id := s.effects[id].(status := Received)]
      && t.nodes == s.nodes[id.node := Taking(v, id)]
      && t.intakes == if id.kind.Proposal? then s.intakes[OfEffect(id) := Intake(IntakeAccepted, v.workload, "", Some(v.job))]
                      else s.intakes
  {
    hide NodeAuthorized, PairAllowed, TextFor, IsMail, RuntimeTaskOf;
  }

  lemma NodesTook(s: Session, nodes: map<NodeId, Node>, done: set<EffectId>, id: EffectId)
    requires nodes.Keys == s.nodes.Keys && id.node in nodes && forall n | n in nodes :: nodes[n] == TakenNode(s, n, done)
    ensures forall n | n in nodes :: nodes[id.node := Taking(nodes[id.node], id)][n] == TakenNode(s, n, done + {id})
  {
    hide RuntimeTaskOf;
  }

  lemma TakenIsTook(p: Policy, s: Session, m: Memory, done: set<EffectId>, id: EffectId, mail: Mail)
    requires TookAll(s, m.data, done) && id in s.effects && id !in done && MemoryEnabled(p, m, TakeAction(id, mail)) && OfEffect(id) !in s.intakes
    ensures TookAll(s, ApplyMemory(p, m, TakeAction(id, mail)).data, done + {id})
  {
    hide MemoryEnabled, ApplyMemory, RuntimeTaskOf, TakenNode, Taking;
    TakeApplies(p, m, id, mail);
    NodesTook(s, m.data.nodes, done, id);
  }

  /** The messages are exactly the sent ones, each once, as they were sent. */
  predicate Letters(s: Session, ids: seq<EffectId>, messages: seq<Message>) {
    && |messages| == |ids|
    && forall k | 0 <= k < |ids| ::
         && ids[k] in s.effects && s.effects[ids[k]].nonce.Some? && s.effects[ids[k]].seqNo.Some?
         && messages[k] == OwnMail(s.effects[ids[k]], messages[k].record)
  }

  function Ids(ids: seq<EffectId>): set<EffectId> {
    set id | id in ids
  }

  lemma {:induction false} ReadTakesAll(p: Policy, m: Memory, alias: Alias, ids: seq<EffectId>, messages: seq<Message>)
    requires Inv(p, m.data) && Distinct(ids) && Letters(m.data, ids, messages)
    requires forall id | id in ids :: MayBeTaken(p, m.data, id, alias) && m.data.effects[id].status.Receiving?
    ensures var c := Classify(p, m, alias, messages);
      c.ok && Inv(p, c.memory.data) && TookAll(m.data, c.memory.data, Ids(ids))
    decreases |ids|
  {
    hide Inv, MayBeTaken, TookAll, ApplyMemory, MemoryEnabled, MessageAction, MessageOk, OwnMail;
    if ids == [] {
      TookNone(m.data);
      assert Ids(ids) == {};
    } else {
      var front, id := ids[..|ids| - 1], ids[|ids| - 1];
      assert forall k | 0 <= k < |front| :: front[k] == ids[k];
      assert id !in front;
      ReadTakesAll(p, m, alias, front, messages[..|messages| - 1]);
      var before := Classify(p, m, alias, messages[..|messages| - 1]);
      TakeOne(p, m.data, before.memory, Ids(front), id, alias, messages[|messages| - 1].record);
      assert Ids(ids) == Ids(front) + {id};
    }
  }

  lemma TookNone(s: Session)
    ensures TookAll(s, s, {})
  {
  }

  /** What the read starts from: everything sent to the peer is being received. */
  lemma Begun(p: Policy, m: Memory, alias: Alias)
    requires Inv(p, m.data) && Smooth(m.data) && m.send.Idle? && m.data.budgets.gets < p.limits.gets
    ensures m.data.lifecycle.Active? && MemoryEnabled(p, m, StartReceive(alias))
    ensures MemoryEnabled(p, ApplyMemory(p, m, StartReceive(alias)), SpendGet)
    ensures var s, n := m.data, ApplyMemory(p, ApplyMemory(p, m, StartReceive(alias)), SpendGet);
      && Inv(p, n.data) && n.data == BeginReceive(s, alias).(budgets := n.data.budgets)
  {
    hide Inv;
    ActionKept(p, m, StartReceive(alias));
    KeptGives(p, m.data, ApplyMemory(p, m, StartReceive(alias)).data);
    ActionKept(p, ApplyMemory(p, m, StartReceive(alias)), SpendGet);
    KeptGives(p, ApplyMemory(p, m, StartReceive(alias)).data, ApplyMemory(p, ApplyMemory(p, m, StartReceive(alias)), SpendGet).data);
  }

  lemma BegunMayBeTaken(p: Policy, s: Session, t: Session, alias: Alias, id: EffectId)
    requires MayBeTaken(p, s, id, alias) && id in SentTo(s, alias) && t == BeginReceive(s, alias).(budgets := t.budgets)
    ensures MayBeTaken(p, t, id, alias) && id in t.effects && t.effects[id] == s.effects[id].(status := Receiving)
  {
    hide WorkloadAllowed, DelegationAllowed, PairAllowed;
    assert forall job :: ProposalActive(t, job) == ProposalActive(s, job);
  }

  /** A message of a node that is on its way says where the node stands. */
  lemma SentStands(p: Policy, s: Session, id: EffectId)
    requires Inv(p, s) && Smooth(s) && id in s.effects && s.effects[id].status.Sent?
    ensures id.node in s.nodes && id.node.Child?
    ensures Stage(s, id.node) == if id.kind.Proposal? then 1 else 4
    ensures id.kind.Result? ==> s.nodes[id.node].compute.ResultReady?
  {
    hide Inv, WorkloadAllowed, DelegationAllowed, AllReady, TextFor, RuntimeTaskOf;
    EffectGives(p, s, id);
    NodeGives(p, s, id.node);
    assert id == EffectId(id.node, id.kind) && SmoothNode(s, id.node);
  }

  ghost predicate TakenStage(s: Session, t: Session, id: NodeId, done: set<EffectId>) {
    && id in s.nodes && id in t.nodes && SmoothNode(t, id)
    && if EffectId(id, Proposal) in done || EffectId(id, Result) in done then Stage(t, id) > Stage(s, id)
       else t.nodes[id] == s.nodes[id] && Stage(t, id) == Stage(s, id)
  }

  lemma NodeTakenWentOn(p: Policy, s: Session, t: Session, alias: Alias, id: NodeId)
    requires Inv(p, s) && Smooth(s) && id in s.nodes && t.nodes.Keys == s.nodes.Keys && t.effects.Keys == s.effects.Keys
    requires t.nodes[id] == TakenNode(s, id, SentTo(s, alias))
    ensures TakenStage(s, t, id, SentTo(s, alias))
  {
    hide Inv, RuntimeTaskOf;
    assert SmoothNode(s, id);
    if EffectId(id, Proposal) in SentTo(s, alias) {
      SentStands(p, s, EffectId(id, Proposal));
    }
    if EffectId(id, Result) in SentTo(s, alias) {
      SentStands(p, s, EffectId(id, Result));
    }
  }

  lemma BegunIs(s: Session, begun: Session, t: Session, alias: Alias)
    requires begun == BeginReceive(s, alias).(budgets := begun.budgets) && TookAll(begun, t, SentTo(s, alias))
    ensures t.lifecycle == s.lifecycle && t.jobs == s.jobs && t.nodes.Keys == s.nodes.Keys && t.effects.Keys == s.effects.Keys
    ensures forall id | id in s.nodes :: t.nodes[id] == TakenNode(s, id, SentTo(s, alias))
    ensures forall e | e in s.effects ::
      t.effects[e] == if e in SentTo(s, alias) then s.effects[e].(status := Received) else s.effects[e]
  {
    hide RuntimeTaskOf;
    forall id | id in s.nodes
      ensures t.nodes[id] == TakenNode(s, id, SentTo(s, alias))
    {
      assert t.nodes[id] == TakenNode(begun, id, SentTo(s, alias));
    }
  }

  /** A session in which exactly what was sent to one peer has been taken is a stage on, and nothing is in doubt. */
  lemma TakenWentOn(p: Policy, s: Session, begun: Session, t: Session, alias: Alias)
    requires Inv(p, s) && Smooth(s) && begun == BeginReceive(s, alias).(budgets := begun.budgets)
    requires TookAll(begun, t, SentTo(s, alias))
    ensures WentOn(s, t, set id | id in SentTo(s, alias) :: id.node)
  {
    hide Inv, TookAll, TakenNode, BeginReceive, SentTo, SmoothNode, Stage;
    BegunIs(s, begun, t, alias);
    var done := SentTo(s, alias);
    var moved := set id | id in done :: id.node;
    forall id | id in s.nodes
      ensures TakenStage(s, t, id, done)
      ensures id in moved <==> EffectId(id, Proposal) in done || EffectId(id, Result) in done
    {
      NodeTakenWentOn(p, s, t, alias, id);
      NodesOf(done, id);
    }
  }

  lemma NodesOf(done: set<EffectId>, id: NodeId)
    ensures id in (set e | e in done :: e.node) <==> EffectId(id, Proposal) in done || EffectId(id, Result) in done
  {
    if EffectId(id, Proposal) in done {
      assert EffectId(id, Proposal).node == id;
    }
    if EffectId(id, Result) in done {
      assert EffectId(id, Result).node == id;
    }
    if e :| e in done && e.node == id {
      if e.kind.Proposal? {
        assert e == EffectId(id, Proposal);
      } else {
        assert e == EffectId(id, Result);
      }
    }
  }

  /** Reading a peer's messages, with nothing going wrong, takes every node it was waited for one stage on and leaves all others alone. */
  lemma ReadGoesOn(p: Policy, m: Memory, t: Session, alias: Alias, inbox: Inbox, c: Course, outcome: Option<Fate>, ids: seq<EffectId>)
    requires Inv(p, m.data) && Smooth(m.data) && m.send.Idle? && m.data.budgets.gets < p.limits.gets
    requires inbox.live && inbox.liveAtRead && inbox.fetched && inbox.acknowledged
    requires Distinct(ids) && Ids(ids) == SentTo(m.data, alias) && Letters(m.data, ids, inbox.messages)
    requires forall id | id in ids :: MayBeTaken(p, m.data, id, alias)
    requires ServeEnds(p, m, t, Read(alias), true, inbox, c, outcome)
    ensures WentOn(m.data, t, Moved(m.data, Read(alias)))
  {
    hide Inv, Smooth, MayBeTaken, SentTo, TookAll, Classify, ApplyMemory, MemoryEnabled, WentOn, CompleteJobs, ReadEnds, BeginReceive;
    Begun(p, m, alias);
    var n := ApplyMemory(p, ApplyMemory(p, m, StartReceive(alias)), SpendGet);
    forall id | id in ids
      ensures MayBeTaken(p, n.data, id, alias) && id in n.data.effects && n.data.effects[id] == m.data.effects[id].(status := Receiving)
    {
      assert id in Ids(ids);
      BegunMayBeTaken(p, m.data, n.data, alias, id);
    }
    ReadTakesAll(p, n, alias, ids, inbox.messages);
    var taken := Classify(p, n, alias, inbox.messages).memory.data;
    TookIsReceived(n.data, taken, Ids(ids));
    TakenWentOn(p, m.data, n.data, taken, alias);
    FinishingWentOn(m.data, taken, set id | id in SentTo(m.data, alias) :: id.node);
  }

  lemma TookIsReceived(s: Session, t: Session, done: set<EffectId>)
    requires TookAll(s, t, done) && done <= s.effects.Keys
    ensures AllReceived(t, done)
  {
  }

  // ------------------------------------------------------------------- whole courses

  /** Whatever is chosen, unless it is only a scheduled look at a mailbox, takes some node on. */
  lemma ChosenMovesSome(s: Session, turn: Place, choice: Choice)
    requires Chosen(s, {}, turn, choice) && !choice.Nothing?
    ensures Moved(s, choice) * s.nodes.Keys != {}
  {
    hide Eligible, AllReady, Distance;
    if choice.Advance? {
      assert choice.node in Moved(s, choice) * s.nodes.Keys;
    } else {
      var e :| e in s.effects && s.effects[e].target == choice.reader && s.effects[e].status.Sent? && OpenJob(s, e.node);
      assert e in SentTo(s, choice.reader);
      assert e.node in Moved(s, choice) && e.node in s.nodes.Keys;
      assert e.node in Moved(s, choice) * s.nodes.Keys;
    }
  }

  function Total(s: Session, ids: seq<NodeId>): nat
    requires forall id | id in ids :: id in s.nodes
  {
    if ids == [] then 0 else Total(s, ids[..|ids| - 1]) + Stage(s, ids[|ids| - 1])
  }

  predicate Meets(moved: set<NodeId>, ids: seq<NodeId>) {
    exists k | 0 <= k < |ids| :: ids[k] in moved
  }

  lemma {:induction false} TotalGrows(s: Session, t: Session, moved: set<NodeId>, ids: seq<NodeId>)
    requires WentOn(s, t, moved) && forall id | id in ids :: id in s.nodes
    ensures Total(s, ids) + (if Meets(moved, ids) then 1 else 0) <= Total(t, ids) <= 5 * |ids|
    decreases |ids|
  {
    hide Smooth, Stage;
    if ids != [] {
      var front, last := ids[..|ids| - 1], ids[|ids| - 1];
      TotalGrows(s, t, moved, front);
      assert Meets(moved, ids) ==> last in moved || Meets(moved, front) by {
        assert forall k | 0 <= k < |front| :: front[k] == ids[k];
      }
    }
  }

  ghost predicate GoesOn(s: Session, t: Session) {
    exists moved :: WentOn(s, t, moved) && moved * s.nodes.Keys != {}
  }

  /** A course of served choices, each taking some node on. */
  ghost predicate IsCourse(states: seq<Session>) {
    forall k | 1 <= k < |states| :: GoesOn(states[k - 1], states[k])
  }

  /** When nothing goes wrong, the peers come to rest after at most five turns for each task. */
  lemma {:induction false} CoursesAreShort(states: seq<Session>, ids: seq<NodeId>)
    requires states != [] && IsCourse(states) && (forall id :: id in ids <==> id in states[0].nodes)
    ensures |states| - 1 <= 5 * |ids|
    ensures forall id | id in ids :: id in states[|states| - 1].nodes
    ensures |states| > 1 ==> |states| - 1 <= Total(states[|states| - 1], ids) <= 5 * |ids|
    ensures states[|states| - 1].nodes.Keys == states[0].nodes.Keys
    decreases |states|
  {
    hide Total, Smooth, Stage;
    if |states| > 1 {
      var n := |states| - 1;
      var front := states[..n];
      CoursesAreShort(front, ids);
      var moved :| WentOn(states[n - 1], states[n], moved) && moved * states[n - 1].nodes.Keys != {};
      var id :| id in moved * states[n - 1].nodes.Keys;
      assert id in ids;
      TotalGrows(states[n - 1], states[n], moved, ids);
    }
  }
}
