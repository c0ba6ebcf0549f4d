/** Every action in memory keeps the session invariant and forgets nothing. */
module SessionSteps {
  import opened Wrappers
  import opened Sessions
  import opened SessionSafety

  /** Readiness and evidence are read off the nodes alone. */
  lemma SameNodesSame(s: Session, t: Session, ids: seq<NodeId>)
    requires t.nodes == s.nodes
    ensures AllReady(t, ids) == AllReady(s, ids) && Evidence(t, ids) == Evidence(s, ids)
  {
    assert forall i | 0 <= i < |ids| :: EvidenceOf(t, ids[i]) == EvidenceOf(s, ids[i]);
  }

  lemma PreparedFits(s: Session, id: EffectId)
    requires Sendable(s, id)
    ensures EffectFits(SetEffect(s, id, NewEffect(s, id)), id)
  {
    SameNodesSame(s, SetEffect(s, id, NewEffect(s, id)), s.nodes[id.node].dependencies);
    hide AllReady, Evidence;
  }

  lemma PreparedProgresses(s: Session, id: EffectId)
    requires Sendable(s, id) && id !in s.effects && Progressed(s, id.node) && id.node.Child?
    ensures Progressed(SetEffect(s, id, NewEffect(s, id)), id.node)
  {
    SameNodesSame(s, SetEffect(s, id, NewEffect(s, id)), s.nodes[id.node].dependencies);
    hide AllReady, Evidence, RuntimeTaskOf;
  }

  /** The budgets when one effect changes and its recorded intent does not. */
  lemma SpentSame(p: Policy, s: Session, id: EffectId, e: Effect)
    requires Spent(p, s) && (id in s.effects ==> e.nonce.Some? == s.effects[id].nonce.Some?)
    requires id !in s.effects ==> e.nonce.None?
    ensures Spent(p, SetEffect(s, id, e))
  {
    assert Intents(SetEffect(s, id, e)) == Intents(s);
  }

  lemma HasParent(p: Policy, s: Session, id: NodeId)
    requires Inv(p, s) && id in s.nodes
    ensures s.nodes[id].parent.Some? <==> id.Child?
    ensures id.Child? ==> s.nodes[id].parent == Some(id.parent) && id.parent in s.nodes
    ensures s.nodes[id].job in s.jobs
  {
    InvNode(p, s, id);
    hide Inv, Progressed, WorkloadAllowed, DelegationAllowed, Distinct;
  }

  lemma RecordChanges(p: Policy, s: Session, id: EffectId, v: Node, e: Effect)
    requires Inv(p, s) && id.node in s.nodes && NodeLater(s.nodes[id.node], v)
    requires id in s.effects ==> EffectLater(s.effects[id], e)
    requires var t := SetEffect(SetNode(s, id.node, v), id, e); EffectFits(t, id) && Progressed(t, id.node) && Spent(p, t)
    ensures Kept(p, s, SetEffect(SetNode(s, id.node, v), id, e))
  {
    hide Inv, Spent, Progressed, EffectFits, NodeLater, EffectLater, Kept;
    EffectChanges(p, s, SetEffect(SetNode(s, id.node, v), id, e), id, v, e);
  }

  lemma UnchangedIsLater(v: Node)
    ensures NodeLater(v, v)
  {
  }

  lemma OnlyEffectChanges(p: Policy, s: Session, id: EffectId, e: Effect)
    requires Inv(p, s) && id.node in s.nodes && (id in s.effects ==> EffectLater(s.effects[id], e))
    requires EffectFits(SetEffect(s, id, e), id) && Progressed(SetEffect(s, id, e), id.node) && Spent(p, SetEffect(s, id, e))
    ensures Kept(p, s, SetEffect(s, id, e))
  {
    hide Inv, Spent, Progressed, EffectFits, NodeLater, EffectLater, Kept;
    UnchangedIsLater(s.nodes[id.node]);
    assert s.nodes[id.node := s.nodes[id.node]] == s.nodes;
    assert SetEffect(SetNode(s, id.node, s.nodes[id.node]), id, e) == SetEffect(s, id, e);
    RecordChanges(p, s, id, s.nodes[id.node], e);
  }

  lemma PrepareKept(p: Policy, s: Session, id: EffectId)
    requires Inv(p, s) && Sendable(s, id) && id !in s.effects
    ensures Kept(p, s, SetEffect(s, id, NewEffect(s, id)))
  {
    hide Inv, Spent, Progressed, EffectFits, NodeFits, Kept, AllReady, TextFor;
    HasParent(p, s, id.node);
    InvNode(p, s, id.node);
    InvSpent(p, s);
    PreparedFits(s, id);
    PreparedProgresses(s, id);
    SpentSame(p, s, id, NewEffect(s, id));
    OnlyEffectChanges(p, s, id, NewEffect(s, id));
  }

  // -------------------------------------------------------- statuses of one effect

  ghost predicate StatusMoves(s: Session, id: EffectId, e: Effect) {
    && id in s.effects && EffectLater(s.effects[id], e)
    && !s.effects[id].status.Received? && !e.status.Received? && !e.status.Prepared?
    && (e.nonce.None? ==> e.status.Failed? || e.status.Ambiguous?)
  }

  lemma MovedFits(s: Session, id: EffectId, e: Effect)
    requires EffectFits(s, id) && StatusMoves(s, id, e)
    ensures EffectFits(SetEffect(s, id, e), id)
  {
    SameNodesSame(s, SetEffect(s, id, e), s.nodes[id.node].dependencies);
    hide AllReady, Evidence;
  }

  lemma MovedProgresses(s: Session, id: EffectId, e: Effect)
    requires Progressed(s, id.node) && StatusMoves(s, id, e)
    ensures Progressed(SetEffect(s, id, e), id.node)
  {
    SameNodesSame(s, SetEffect(s, id, e), s.nodes[id.node].dependencies);
    hide AllReady, Evidence, RuntimeTaskOf;
  }

  lemma MoveKept(p: Policy, s: Session, id: EffectId, e: Effect)
    requires Inv(p, s) && StatusMoves(s, id, e) && s.effects[id].nonce == e.nonce
    ensures Kept(p, s, SetEffect(s, id, e))
  {
    hide Inv, Spent, Progressed, EffectFits, NodeFits, Kept, EffectLater;
    InvEffect(p, s, id);
    InvSpent(p, s);
    NodeOfEffect(p, s, id);
    MovedFits(s, id, e);
    MovedProgresses(s, id, e);
    SpentSame(p, s, id, e);
    OnlyEffectChanges(p, s, id, e);
  }

  lemma NodeOfEffect(p: Policy, s: Session, id: EffectId)
    requires Inv(p, s) && id in s.effects
    ensures id.node in s.nodes && id.node.Child? && s.nodes[id.node].parent.Some?
  {
    hide Inv, NodeFits, Progressed;
    InvEffect(p, s, id);
    HasParent(p, s, id.node);
  }

  lemma IntentSpent(p: Policy, s: Session, id: EffectId, e: Effect)
    requires Spent(p, s) && s.budgets.outbound < p.limits.outbound
    requires id in s.effects && s.effects[id].nonce.None? && e.nonce.Some?
    ensures Spent(p, SetEffect(s, id, e).(budgets := s.budgets.(outbound := s.budgets.outbound + 1)))
  {
    var t := SetEffect(s, id, e).(budgets := s.budgets.(outbound := s.budgets.outbound + 1));
    assert Intents(t) == Intents(s) + {id};
  }

  /** Neither fits nor progress looks at the budgets, the lifecycle, the jobs' statuses or the intake records. */
  lemma OnlyRecordsMatter(s: Session, t: Session, id: EffectId)
    requires EffectFits(s, id) && Progressed(s, id.node) && t.nodes == s.nodes && t.effects == s.effects
    ensures EffectFits(t, id) && Progressed(t, id.node)
  {
    SameNodesSame(s, t, s.nodes[id.node].dependencies);
    hide AllReady, Evidence, RuntimeTaskOf;
  }

  lemma IntendKept(p: Policy, s: Session, id: EffectId, nonce: Nonce)
    requires Inv(p, s) && id in s.effects && s.effects[id].status.Prepared? && s.budgets.outbound < p.limits.outbound
    ensures Kept(p, s, SetEffect(s, id, s.effects[id].(status := Sending, nonce := Some(nonce)))
                         .(budgets := s.budgets.(outbound := s.budgets.outbound + 1)))
  {
    hide Inv, Spent, Progressed, NodeFits, Kept, NewEffect, NodeLater;
    var e := s.effects[id].(status := Sending, nonce := Some(nonce));
    var u := SetEffect(s, id, e);
    var t := u.(budgets := s.budgets.(outbound := s.budgets.outbound + 1));
    InvEffect(p, s, id);
    InvSpent(p, s);
    NodeOfEffect(p, s, id);
    assert s.effects[id].nonce.None?;
    assert StatusMoves(s, id, e);
    hide EffectFits, EffectLater, StatusMoves;
    MovedFits(s, id, e);
    MovedProgresses(s, id, e);
    OnlyRecordsMatter(u, t, id);
    IntentSpent(p, s, id, e);
    UnchangedIsLater(s.nodes[id.node]);
    assert t.nodes == s.nodes[id.node := s.nodes[id.node]];
    NoncedIsLater(s, id, e);
    EffectChanges(p, s, t, id, s.nodes[id.node], e);
  }

  lemma NoncedIsLater(s: Session, id: EffectId, e: Effect)
    requires id in s.effects && StatusMoves(s, id, e)
    ensures EffectLater(s.effects[id], e)
  {
  }

  // --------------------------------------------------- everything around the records

  lemma QuietKept(p: Policy, s: Session, t: Session)
    requires Inv(p, s) && t.nodes == s.nodes && t.effects == s.effects && SameJobs(s, t)
    requires s.budgets.tasks == t.budgets.tasks && s.budgets.outbound == t.budgets.outbound
    requires s.budgets.gets <= t.budgets.gets <= p.limits.gets
    requires s.budgets.inference <= t.budgets.inference <= p.limits.inference
    ensures Kept(p, s, t)
  {
    hide Inv, Later, SameJobs, Kept, Spent, Structured;
    InvSpent(p, s);
    SpentByRecords(p, s, t);
    RecordsStay(p, s, t);
  }

  lemma SpentByRecords(p: Policy, s: Session, t: Session)
    requires Spent(p, s) && t.nodes == s.nodes && t.effects == s.effects
    requires s.budgets.tasks == t.budgets.tasks && s.budgets.outbound == t.budgets.outbound
    requires t.budgets.gets <= p.limits.gets && t.budgets.inference <= p.limits.inference
    ensures Spent(p, t)
  {
    assert Intents(t) == Intents(s);
  }

  lemma KeptJoins(p: Policy, s: Session, t: Session, u: Session)
    requires Kept(p, s, t) && Kept(p, t, u)
    ensures Kept(p, s, u)
  {
    hide Inv, Later;
    LaterTransitive(s, t, u);
  }

  /** The budgets read within an invariant-keeping session. */
  lemma WithinLimits(p: Policy, s: Session)
    requires Inv(p, s)
    ensures s.budgets.gets <= p.limits.gets && s.budgets.inference <= p.limits.inference
  {
    InvSpent(p, s);
    hide Inv;
  }

  lemma ThenQuiet(p: Policy, s: Session, t: Session, u: Session)
    requires Kept(p, s, t) && u.nodes == t.nodes && u.effects == t.effects && SameJobs(t, u) && u.budgets == t.budgets
    ensures Kept(p, s, u)
  {
    hide Inv, Later, SameJobs;
    WithinLimits(p, t);
    QuietKept(p, t, u);
    KeptJoins(p, s, t, u);
  }

  lemma BlockJobIsQuiet(s: Session, job: JobId)
    ensures SameJobs(s, BlockJob(s, job))
  {
  }

  lemma CompleteIsQuiet(s: Session)
    ensures SameJobs(s, CompleteJobs(s))
  {
    hide Finished;
  }

  // ------------------------------------------------------------ steps of one node

  ghost predicate NodeMoves(s: Session, id: NodeId, v: Node) {
    && id in s.nodes && NodeLater(s.nodes[id], v)
    && Progressed(SetNode(s, id, v), id)
  }

  lemma SpentByNode(p: Policy, s: Session, id: NodeId, v: Node)
    requires Spent(p, s) && id in s.nodes
    ensures Spent(p, SetNode(s, id, v))
  {
    assert Intents(SetNode(s, id, v)) == Intents(s);
    assert s.nodes[id := v].Keys == s.nodes.Keys;
  }

  lemma NodeMoveKept(p: Policy, s: Session, id: NodeId, v: Node)
    requires Inv(p, s) && NodeMoves(s, id, v)
    ensures Kept(p, s, SetNode(s, id, v))
  {
    hide Inv, Spent, Progressed, NodeLater, Kept;
    InvSpent(p, s);
    SpentByNode(p, s, id, v);
    NodeChanges(p, s, SetNode(s, id, v), id, v);
  }

  /** Changing one node leaves its own dependencies' readiness alone: a node is not its own dependency. */
  lemma OwnDependenciesStay(p: Policy, s: Session, id: NodeId, v: Node)
    requires Inv(p, s) && id in s.nodes && NodeLater(s.nodes[id], v) && AllReady(s, s.nodes[id].dependencies)
    ensures AllReady(SetNode(s, id, v), s.nodes[id].dependencies)
  {
    hide Inv;
    InvNode(p, s, id);
    hide NodeFits, Progressed;
    forall d | d in s.nodes[id].dependencies
      ensures Ready(SetNode(s, id, v), d)
    {
      assert Ready(s, d);
    }
  }

  lemma {:induction false} ProgressOf(p: Policy, s: Session, id: NodeId, v: Node)
    requires Inv(p, s) && id in s.nodes && NodeLater(s.nodes[id], v)
    requires (v.compute.Accepted? || v.compute.Running? || v.compute.ResultReady? ==> v.runtimeTask == Some(RuntimeTaskOf(id)))
    requires v.runtimeTask.Some? ==> v.runtimeTask == Some(RuntimeTaskOf(id))
    requires v.evidence.Some? <==> v.compute.ResultReady?
    requires id.Root? <==> v.delivery.Local?
    requires id.Child? ==>
      && (v.compute.Planned? <==> s.nodes[id].compute.Planned?)
      && (EffectId(id, Result) in s.effects ==> v.compute.ResultReady?)
      && (v.delivery.Delivered? <==> s.nodes[id].delivery.Delivered?)
      && (v.delivery.ResultSent? ==> EffectId(id, Result) in s.effects)
    ensures NodeMoves(s, id, v)
  {
    hide Inv, AllReady, RuntimeTaskOf, NodeFits;
    InvNode(p, s, id);
    if id.Child? && AllReady(s, s.nodes[id].dependencies) {
      OwnDependenciesStay(p, s, id, v);
    }
  }

  lemma {:induction false} EnqueueKept(p: Policy, s: Session, job: JobId)
    requires Inv(p, s) && Root(job) in s.nodes && s.nodes[Root(job)].compute.Planned?
    ensures var v := s.nodes[Root(job)];
      && Kept(p, s, SetNode(s, Root(job), v.(compute := Accepted, runtimeTask := Some(RuntimeTaskOf(Root(job))))))
      && Kept(p, s, SetNode(s, Root(job), v.(compute := ComputeFailed)))
  {
    hide Inv, Kept, NodeMoves, NodeFits, RuntimeTaskOf;
    var id, v := Root(job), s.nodes[Root(job)];
    InvNode(p, s, id);
    ProgressOf(p, s, id, v.(compute := Accepted, runtimeTask := Some(RuntimeTaskOf(id))));
    NodeMoveKept(p, s, id, v.(compute := Accepted, runtimeTask := Some(RuntimeTaskOf(id))));
    ProgressOf(p, s, id, v.(compute := ComputeFailed));
    NodeMoveKept(p, s, id, v.(compute := ComputeFailed));
  }

  lemma RunKept(p: Policy, s: Session, id: NodeId, outcome: Fate)
    requires Inv(p, s) && id in s.nodes
    ensures s.nodes[id].compute.Accepted? ==> Kept(p, s, SetNode(s, id, s.nodes[id].(compute := Running)))
    ensures s.nodes[id].compute.Running? ==>
      && Kept(p, s, SetNode(s, id, s.nodes[id].(compute := ComputeFailed)))
      && Kept(p, s, SetNode(s, id, s.nodes[id].(compute := ComputeAmbiguous)))
  {
    hide Inv, Kept, NodeMoves, NodeFits, RuntimeTaskOf, AllReady;
    InvNode(p, s, id);
    var v := s.nodes[id];
    if v.compute.Accepted? {
      ProgressOf(p, s, id, v.(compute := Running));
      NodeMoveKept(p, s, id, v.(compute := Running));
    } else if v.compute.Running? {
      ProgressOf(p, s, id, v.(compute := ComputeFailed));
      NodeMoveKept(p, s, id, v.(compute := ComputeFailed));
      ProgressOf(p, s, id, v.(compute := ComputeAmbiguous));
      NodeMoveKept(p, s, id, v.(compute := ComputeAmbiguous));
    }
  }

  lemma ResultKept(p: Policy, s: Session, id: NodeId, result: Hash)
    requires Inv(p, s) && id in s.nodes && s.nodes[id].compute.Running?
    ensures Kept(p, s, SetNode(s, id, s.nodes[id].(compute := ResultReady, evidence := Some(result))))
  {
    hide Inv, Kept, NodeMoves, NodeFits, RuntimeTaskOf, AllReady;
    InvNode(p, s, id);
    ProgressOf(p, s, id, s.nodes[id].(compute := ResultReady, evidence := Some(result)));
    NodeMoveKept(p, s, id, s.nodes[id].(compute := ResultReady, evidence := Some(result)));
  }

  lemma RefuseKept(p: Policy, s: Session, id: EffectId)
    requires Inv(p, s) && Sendable(s, id)
    ensures Kept(p, s, SetNode(s, id.node, s.nodes[id.node].(delivery := NeedsOperator)))
  {
    hide Inv, Kept, NodeMoves, NodeFits, RuntimeTaskOf, AllReady;
    InvNode(p, s, id.node);
    HasParent(p, s, id.node);
    ProgressOf(p, s, id.node, s.nodes[id.node].(delivery := NeedsOperator));
    NodeMoveKept(p, s, id.node, s.nodes[id.node].(delivery := NeedsOperator));
  }

  lemma ResultSentKept(p: Policy, s: Session, id: EffectId)
    requires Inv(p, s) && id.kind.Result? && HasStatus(s, id, Sent) && id.node in s.nodes
    ensures Kept(p, s, SetNode(s, id.node, s.nodes[id.node].(delivery := ResultSent)))
  {
    hide Inv, Kept, NodeMoves, NodeFits, RuntimeTaskOf, AllReady;
    InvNode(p, s, id.node);
    NodeOfEffect(p, s, id);
    assert id == EffectId(id.node, Result);
    ProgressOf(p, s, id.node, s.nodes[id.node].(delivery := ResultSent));
    NodeMoveKept(p, s, id.node, s.nodes[id.node].(delivery := ResultSent));
  }

  // ------------------------------------------------------------------- receipts

  /** The node and effect after a message was accepted. */
  lemma TakenKept(p: Policy, s: Session, id: EffectId, v: Node)
    requires Inv(p, s) && HasStatus(s, id, Receiving) && id.node in s.nodes && NodeLater(s.nodes[id.node], v)
    requires v.evidence == s.nodes[id.node].evidence
    requires var t := SetEffect(SetNode(s, id.node, v), id, s.effects[id].(status := Received)); Progressed(t, id.node)
    ensures Kept(p, s, SetEffect(SetNode(s, id.node, v), id, s.effects[id].(status := Received)))
  {
    hide Inv, Kept, Progressed, Spent, EffectFits, NodeFits, NodeLater, EffectLater;
    var e := s.effects[id].(status := Received);
    var u := SetNode(s, id.node, v);
    InvSpent(p, s);
    SpentByNode(p, s, id.node, v);
    SpentSame(p, u, id, e);
    TakenFits(p, s, id, v);
    ReceivedIsLater(s.effects[id]);
    RecordChanges(p, s, id, v, e);
  }

  lemma ReceivedIsLater(e: Effect)
    requires e.status.Receiving?
    ensures EffectLater(e, e.(status := Received))
  {
  }

  lemma TakenFits(p: Policy, s: Session, id: EffectId, v: Node)
    requires Inv(p, s) && HasStatus(s, id, Receiving) && id.node in s.nodes && NodeLater(s.nodes[id.node], v)
    requires v.evidence == s.nodes[id.node].evidence
    ensures EffectFits(SetEffect(SetNode(s, id.node, v), id, s.effects[id].(status := Received)), id)
  {
    hide Inv, NodeFits, Progressed, RuntimeTaskOf, AllReady;
    var t := SetEffect(SetNode(s, id.node, v), id, s.effects[id].(status := Received));
    InvEffect(p, s, id);
    HasParent(p, s, id.node);
    var ids := s.nodes[id.node].dependencies;
    assert forall i | 0 <= i < |ids| :: EvidenceOf(t, ids[i]) == EvidenceOf(s, ids[i]);
    assert Evidence(t, ids) == Evidence(s, ids);
    hide Evidence, EvidenceOf;
  }

  lemma TakeProposalKept(p: Policy, s: Session, id: EffectId)
    requires Inv(p, s) && id.kind.Proposal? && HasStatus(s, id, Receiving)
    requires id.node in s.nodes && s.nodes[id.node].compute.Planned?
    ensures var v := s.nodes[id.node].(compute := Accepted, runtimeTask := Some(RuntimeTaskOf(id.node)));
      Kept(p, s, SetEffect(SetNode(s, id.node, v), id, s.effects[id].(status := Received)))
  {
    hide Inv, Kept, NodeFits, AllReady, RuntimeTaskOf, EffectFits;
    var v := s.nodes[id.node].(compute := Accepted, runtimeTask := Some(RuntimeTaskOf(id.node)));
    var u := SetNode(s, id.node, v);
    var t := SetEffect(u, id, s.effects[id].(status := Received));
    InvNode(p, s, id.node);
    NodeOfEffect(p, s, id);
    assert id == EffectId(id.node, Proposal);
    OwnDependenciesStay(p, s, id.node, v);
    SameNodesSame(u, t, v.dependencies);
    assert Progressed(t, id.node);
    hide Progressed;
    TakenKept(p, s, id, v);
  }

  lemma TakeResultKept(p: Policy, s: Session, id: EffectId)
    requires Inv(p, s) && id.kind.Result? && HasStatus(s, id, Receiving) && id.node in s.nodes
    ensures var v := s.nodes[id.node].(delivery := Delivered);
      Kept(p, s, SetEffect(SetNode(s, id.node, v), id, s.effects[id].(status := Received)))
  {
    hide Inv, Kept, NodeFits, AllReady, RuntimeTaskOf, EffectFits;
    var v := s.nodes[id.node].(delivery := Delivered);
    var u := SetNode(s, id.node, v);
    var t := SetEffect(u, id, s.effects[id].(status := Received));
    InvNode(p, s, id.node);
    NodeOfEffect(p, s, id);
    assert id == EffectId(id.node, Result);
    OwnDependenciesStay(p, s, id.node, v);
    SameNodesSame(u, t, v.dependencies);
    assert Progressed(t, id.node);
    hide Progressed;
    TakenKept(p, s, id, v);
  }

  // ------------------------------------------------------------------ many effects

  lemma DoubtIsOnlyDoubts(s: Session, ids: set<EffectId>)
    requires forall e | e in ids && e in s.effects ::
      s.effects[e].status.Sending? || s.effects[e].status.Receiving? || s.effects[e].status.Received?
    ensures OnlyDoubts(s, Doubt(s, ids))
  {
  }

  lemma DoubtKept(p: Policy, s: Session, ids: set<EffectId>)
    requires Inv(p, s)
    requires forall e | e in ids && e in s.effects ::
      s.effects[e].status.Sending? || s.effects[e].status.Receiving? || s.effects[e].status.Received?
    ensures Kept(p, s, Doubt(s, ids))
  {
    hide Inv, Kept, OnlyDoubts;
    DoubtIsOnlyDoubts(s, ids);
    WithinLimits(p, s);
    StatusesChange(p, s, Doubt(s, ids));
  }

  lemma ReceiveIsOnlyDoubts(p: Policy, s: Session, alias: Alias)
    requires Inv(p, s)
    ensures OnlyDoubts(s, BeginReceive(s, alias))
  {
    hide Inv;
    var t := BeginReceive(s, alias);
    forall e | e in s.effects
      ensures t.effects[e] == s.effects[e]
        || (s.effects[e].status.Sent? && t.effects[e] == s.effects[e].(status := Receiving) && s.effects[e].nonce.Some?)
    {
      InvEffect(p, s, e);
      hide NodeFits, Progressed, NewEffect;
    }
  }

  lemma ReceiveKept(p: Policy, s: Session, alias: Alias)
    requires Inv(p, s)
    ensures Kept(p, s, BeginReceive(s, alias))
  {
    hide Inv, Kept, OnlyDoubts;
    ReceiveIsOnlyDoubts(p, s, alias);
    WithinLimits(p, s);
    StatusesChange(p, s, BeginReceive(s, alias));
  }

  // ---------------------------------------------------------------- growing the graph

  lemma SubmitKept(p: Policy, s: Session, job: JobId, root: Job, v: Node)
    requires Inv(p, s) && job !in s.jobs && s.budgets.tasks < p.limits.tasks
    requires root.tasks == [Root(job)]
    requires root.authority.External? ==> ScopeAllowed(p, root.authority.scope, v.workload)
    requires v.job == job && v.parent.None? && v.dependencies == [] && v.depth == 0 && WorkloadAllowed(p, v.alias, v.workload)
    requires v.compute.Planned? && v.delivery.Local? && v.runtimeTask.None? && v.evidence.None?
    ensures Kept(p, s, s.(jobs := s.jobs[job := root], nodes := s.nodes[Root(job) := v],
                          budgets := s.budgets.(tasks := s.budgets.tasks + 1)))
  {
    hide Inv, Progressed, Spent, Structured, EffectFits, WorkloadAllowed, DelegationAllowed;
    var t := s.(jobs := s.jobs[job := root], nodes := s.nodes[Root(job) := v],
                budgets := s.budgets.(tasks := s.budgets.tasks + 1));
    InvSpent(p, s);
    RootIsNew(p, s, job);
    SubmitStructured(p, s, job, root, v);
    GrownSpent(p, s, t, Root(job), v);
    assert Later(s, t);
    assert Progressed(t, Root(job)) by { FreshRootProgresses(t, job); }
    hide Later, NodeFits;
    RestKept(p, s, t, {Root(job)}, {});
  }

  lemma FreshRootProgresses(t: Session, job: JobId)
    requires Root(job) in t.nodes
    requires var v := t.nodes[Root(job)]; v.compute.Planned? && v.delivery.Local? && v.runtimeTask.None? && v.evidence.None?
    ensures Progressed(t, Root(job))
  {
  }

  lemma RootIsNew(p: Policy, s: Session, job: JobId)
    requires Inv(p, s) && job !in s.jobs
    ensures Root(job) !in s.nodes
  {
    hide Inv;
    if Root(job) in s.nodes {
      InvNode(p, s, Root(job));
    }
  }

  lemma GrownSpent(p: Policy, s: Session, t: Session, id: NodeId, v: Node)
    requires Spent(p, s) && id !in s.nodes && s.budgets.tasks < p.limits.tasks
    requires t.nodes == s.nodes[id := v] && t.effects == s.effects && t.budgets == s.budgets.(tasks := s.budgets.tasks + 1)
    ensures Spent(p, t)
  {
    assert Intents(t) == Intents(s);
    assert t.nodes.Keys == s.nodes.Keys + {id};
    assert |t.nodes| == |t.nodes.Keys| && |s.nodes| == |s.nodes.Keys|;
  }

  lemma StructuredNode(p: Policy, s: Session, id: NodeId)
    requires Structured(p, s) && id in s.nodes
    ensures NodeFits(p, s, id) && JobFits(p, s, s.nodes[id].job)
  {
  }

  /** Old nodes and jobs keep fitting when the graph only grows: fixed parts stay, task lists may be extended. */
  lemma OldNodeFits(p: Policy, s: Session, t: Session, id: NodeId)
    requires NodeFits(p, s, id) && id in t.nodes && t.nodes[id] == s.nodes[id]
    requires forall n | n in s.nodes :: n in t.nodes && t.nodes[n] == s.nodes[n]
    requires forall j | j in s.jobs :: j in t.jobs && t.jobs[j].authority == s.jobs[j].authority && s.jobs[j].tasks <= t.jobs[j].tasks
    ensures NodeFits(p, t, id)
  {
    hide WorkloadAllowed, DelegationAllowed, Distinct;
    assert forall n | n in s.nodes[id].dependencies :: n in t.nodes && t.nodes[n] == s.nodes[n];
  }

  lemma OldJobFits(p: Policy, s: Session, t: Session, j: JobId)
    requires JobFits(p, s, j) && j in t.jobs && t.jobs[j].tasks == s.jobs[j].tasks && t.jobs[j].authority == s.jobs[j].authority
    requires forall n | n in s.nodes :: n in t.nodes && t.nodes[n] == s.nodes[n]
    ensures JobFits(p, t, j)
  {
    hide Distinct;
  }

  lemma SubmitStructured(p: Policy, s: Session, job: JobId, root: Job, v: Node)
    requires Structured(p, s) && job !in s.jobs && Root(job) !in s.nodes
    requires root.tasks == [Root(job)]
    requires root.authority.External? ==> ScopeAllowed(p, root.authority.scope, v.workload)
    requires v.job == job && v.parent.None? && v.dependencies == [] && v.depth == 0 && WorkloadAllowed(p, v.alias, v.workload)
    ensures Structured(p, s.(jobs := s.jobs[job := root], nodes := s.nodes[Root(job) := v],
                             budgets := s.budgets.(tasks := s.budgets.tasks + 1)))
  {
    hide WorkloadAllowed, DelegationAllowed, NodeFits, JobFits;
    var t := s.(jobs := s.jobs[job := root], nodes := s.nodes[Root(job) := v],
                budgets := s.budgets.(tasks := s.budgets.tasks + 1));
    forall id | id in t.nodes
      ensures NodeFits(p, t, id)
    {
      if id != Root(job) {
        OldNodeFits(p, s, t, id);
      } else {
        NewRootFits(p, t, job);
      }
    }
    forall j | j in t.jobs
      ensures JobFits(p, t, j)
    {
      if j != job {
        OldJobFits(p, s, t, j);
      } else {
        NewRootFits(p, t, job);
      }
    }
  }

  lemma NewRootFits(p: Policy, t: Session, job: JobId)
    requires job in t.jobs && Root(job) in t.nodes && t.jobs[job].tasks == [Root(job)]
    requires t.jobs[job].authority.External? ==> ScopeAllowed(p, t.jobs[job].authority.scope, t.nodes[Root(job)].workload)
    requires var v := t.nodes[Root(job)];
      v.job == job && v.parent.None? && v.dependencies == [] && v.depth == 0 && WorkloadAllowed(p, v.alias, v.workload)
    ensures NodeFits(p, t, Root(job)) && JobFits(p, t, job)
  {
    hide WorkloadAllowed;
  }

  lemma NewChildFits(p: Policy, s: Session, id: NodeId, v: Node)
    requires id.Child? && id !in s.nodes && DelegateEnabled(p, s, id.parent, id.target, id.workload, id.dependencies)
    requires v == ChildNode(s, id.parent, id.target, id.workload, id.dependencies)
    ensures NodeFits(p, Delegated(s, id, v), id)
  {
    hide WorkloadAllowed, PairAllowed, ProposalActive, Distinct;
  }

  lemma ExtendedJobFits(p: Policy, s: Session, id: NodeId, v: Node)
    requires id.Child? && id !in s.nodes && DelegateEnabled(p, s, id.parent, id.target, id.workload, id.dependencies)
    requires v == ChildNode(s, id.parent, id.target, id.workload, id.dependencies) && JobFits(p, s, v.job)
    ensures JobFits(p, Delegated(s, id, v), v.job)
  {
    hide WorkloadAllowed, DelegationAllowed, ProposalActive;
  }

  lemma DelegateStructured(p: Policy, s: Session, id: NodeId, v: Node)
    requires Structured(p, s) && id.Child? && id !in s.nodes
    requires DelegateEnabled(p, s, id.parent, id.target, id.workload, id.dependencies)
    requires v == ChildNode(s, id.parent, id.target, id.workload, id.dependencies)
    ensures Structured(p, Delegated(s, id, v))
  {
    hide WorkloadAllowed, DelegationAllowed, ProposalActive, NodeFits, JobFits, NodeAuthorized;
    var t := Delegated(s, id, v);
    forall n | n in t.nodes
      ensures NodeFits(p, t, n)
    {
      if n != id {
        OldNodeFits(p, s, t, n);
      } else {
        NewChildFits(p, s, id, v);
      }
    }
    forall j | j in t.jobs
      ensures JobFits(p, t, j)
    {
      if j != v.job {
        OldJobFits(p, s, t, j);
      } else {
        ExtendedJobFits(p, s, id, v);
      }
    }
  }

  lemma DelegateKept(p: Policy, s: Session, id: NodeId, v: Node)
    requires Inv(p, s) && id.Child? && id !in s.nodes
    requires DelegateEnabled(p, s, id.parent, id.target, id.workload, id.dependencies)
    requires v == ChildNode(s, id.parent, id.target, id.workload, id.dependencies)
    ensures Kept(p, s, Delegated(s, id, v))
  {
    hide Inv, Progressed, Spent, Structured, EffectFits, NodeAuthorized, NodeFits;
    var t := Delegated(s, id, v);
    InvSpent(p, s);
    DelegateStructured(p, s, id, v);
    GrownSpent(p, s, t, id, v);
    NoEffectsYet(p, s, id);
    FreshChildProgresses(t, id);
    assert Later(s, t);
    hide Later, DelegateEnabled;
    RestKept(p, s, t, {id}, {});
  }

  lemma NoEffectsYet(p: Policy, s: Session, id: NodeId)
    requires Inv(p, s) && id !in s.nodes
    ensures EffectId(id, Proposal) !in s.effects && EffectId(id, Result) !in s.effects
  {
    hide Inv;
    if EffectId(id, Proposal) in s.effects { NodeOfEffect(p, s, EffectId(id, Proposal)); }
    if EffectId(id, Result) in s.effects { NodeOfEffect(p, s, EffectId(id, Result)); }
  }

  lemma FreshChildProgresses(t: Session, id: NodeId)
    requires id in t.nodes && id.Child?
    requires EffectId(id, Proposal) !in t.effects && EffectId(id, Result) !in t.effects
    requires var v := t.nodes[id]; v.compute.Planned? && v.delivery.Undelivered? && v.runtimeTask.None? && v.evidence.None?
    ensures Progressed(t, id)
  {
  }

  // ---------------------------------------------------------------- offline reopen

  /** A settled delivery has nothing unreceived behind it, so a reopen does not touch it. */
  lemma SettledIsNotLost(p: Policy, s: Session, id: NodeId)
    requires Inv(p, s) && id in s.nodes && (s.nodes[id].delivery.Local? || s.nodes[id].delivery.Delivered?)
    ensures !Lost(s, id)
  {
    hide Inv, NodeFits, AllReady, RuntimeTaskOf;
    InvNode(p, s, id);
    if Unreceived(s, EffectId(id, Proposal)) { NodeOfEffect(p, s, EffectId(id, Proposal)); }
    if Unreceived(s, EffectId(id, Result)) { NodeOfEffect(p, s, EffectId(id, Result)); }
  }

  lemma RestoredNodeLater(p: Policy, s: Session, id: NodeId, fate: Fate)
    requires Inv(p, s) && id in s.nodes
    ensures NodeLater(s.nodes[id], RestoredNode(s, id, fate))
  {
    hide Inv, NodeFits, AllReady, RuntimeTaskOf, Lost;
    InvNode(p, s, id);
    if s.nodes[id].delivery.Local? || s.nodes[id].delivery.Delivered? {
      SettledIsNotLost(p, s, id);
    }
  }

  lemma RestoredLater(p: Policy, s: Session, fates: map<NodeId, Fate>)
    requires Inv(p, s)
    ensures Later(s, RestoredRecords(s, fates))
    ensures SameJobs(s, RestoredRecords(s, fates))
    ensures SameStructure(s, RestoredRecords(s, fates))
  {
    hide Inv, RestoreBlocks, RestoredNode, NodeLater;
    forall id | id in s.nodes
      ensures NodeLater(s.nodes[id], RestoredNode(s, id, FateOf(fates, id)))
      ensures SameFixedPart(s.nodes[id], RestoredNode(s, id, FateOf(fates, id)))
    {
      RestoredNodeLater(p, s, id, FateOf(fates, id));
      LaterKeepsFixedPart(s.nodes[id], RestoredNode(s, id, FateOf(fates, id)));
    }
  }

  lemma LaterKeepsFixedPart(a: Node, b: Node)
    requires NodeLater(a, b)
    ensures SameFixedPart(a, b)
  {
  }

  lemma RestoredProgresses(p: Policy, s: Session, fates: map<NodeId, Fate>, id: NodeId)
    requires Inv(p, s) && id in s.nodes
    ensures Progressed(RestoredRecords(s, fates), id)
  {
    hide Inv, NodeFits, AllReady, RuntimeTaskOf, RestoreBlocks, Later, SameJobs, SameStructure, Evidence;
    var t := RestoredRecords(s, fates);
    InvNode(p, s, id);
    HasParent(p, s, id);
    RestoredLater(p, s, fates);
    if AllReady(s, s.nodes[id].dependencies) {
      DependenciesStay(p, s, t, id);
    }
    if s.nodes[id].delivery.Local? || s.nodes[id].delivery.Delivered? {
      SettledIsNotLost(p, s, id);
    }
    if id.Root? {
      NoEffectsOfRoot(p, s, id);
    }
  }

  lemma NoEffectsOfRoot(p: Policy, s: Session, id: NodeId)
    requires Inv(p, s) && id.Root?
    ensures EffectId(id, Proposal) !in s.effects && EffectId(id, Result) !in s.effects
  {
    hide Inv;
    if EffectId(id, Proposal) in s.effects { NodeOfEffect(p, s, EffectId(id, Proposal)); }
    if EffectId(id, Result) in s.effects { NodeOfEffect(p, s, EffectId(id, Result)); }
  }

  lemma RestoredEffectFits(p: Policy, s: Session, fates: map<NodeId, Fate>, id: EffectId)
    requires Inv(p, s) && id in s.effects
    ensures EffectFits(RestoredRecords(s, fates), id)
  {
    hide Inv, NodeFits, AllReady, RuntimeTaskOf, RestoreBlocks, Later, SameJobs, SameStructure, Evidence, RestoredNode;
    var t := RestoredRecords(s, fates);
    InvEffect(p, s, id);
    HasParent(p, s, id.node);
    RestoredLater(p, s, fates);
    LaterNode(s, t, id.node);
    LaterNode(s, t, id.node.parent);
    if id.kind.Proposal? {
      DependenciesStay(p, s, t, id.node);
    }
  }

  lemma RestoredSpent(p: Policy, s: Session, fates: map<NodeId, Fate>)
    requires Spent(p, s)
    ensures Spent(p, RestoredRecords(s, fates))
  {
    hide RestoredNode, RestoreBlocks;
    var t := RestoredRecords(s, fates);
    assert Intents(t) == Intents(s);
    assert t.nodes.Keys == s.nodes.Keys && |t.nodes| == |t.nodes.Keys| && |s.nodes| == |s.nodes.Keys|;
  }

  lemma RestoreKept(p: Policy, s: Session, fates: map<NodeId, Fate>)
    requires Inv(p, s)
    ensures Kept(p, s, Restore(s, fates))
  {
    hide Inv, Structured, Spent, EffectFits, Progressed, Later, SameStructure, SameJobs, RestoredNode, RestoreBlocks, CompleteJobs;
    var t := RestoredRecords(s, fates);
    InvSpent(p, s);
    RestoredLater(p, s, fates);
    RestoredSpent(p, s, fates);
    StructureKept(p, s, t);
    forall id | id in t.effects
      ensures EffectFits(t, id)
    {
      RestoredEffectFits(p, s, fates, id);
    }
    forall id | id in t.nodes
      ensures Progressed(t, id)
    {
      RestoredProgresses(p, s, fates, id);
    }
    InvFrom(p, t);
    CompleteKept(p, s, t);
  }

  lemma CompleteKept(p: Policy, s: Session, t: Session)
    requires Kept(p, s, t)
    ensures Kept(p, s, CompleteJobs(t))
  {
    hide Kept, Finished, SameJobs;
    CompleteIsQuiet(t);
    ThenQuiet(p, s, t, CompleteJobs(t));
  }
}
