/** What every step of a session keeps, and what therefore holds over every run, crash and reopen. */
module SessionSafety {
  import opened Wrappers
  import opened Sessions

  // ------------------------------------------------------------------ invariant

  /** A node's fixed part: its place in the graph and the authority it was created under. */
  ghost predicate NodeFits(p: Policy, s: Session, id: NodeId) {
    && id in s.nodes
    && var v := s.nodes[id];
    && v.job in s.jobs && id in s.jobs[v.job].tasks
    && WorkloadAllowed(p, v.alias, v.workload)
    && match id
       case Root(job) => v.job == job && v.parent.None? && v.dependencies == [] && v.depth == 0
       case Child(parent, target, workload, _, dependencies) =>
         && v.parent == Some(parent) && v.alias == target && v.workload == workload && v.dependencies == dependencies
         && parent in dependencies && Distinct(dependencies)
         && (forall d | d in dependencies :: d in s.nodes && s.nodes[d].job == v.job)
         && v.depth == s.nodes[parent].depth + 1 && s.nodes[parent].alias != target
         && DelegationAllowed(p, s.nodes[parent].alias, target, workload, v.depth, s.jobs[v.job].authority)
  }

  ghost predicate JobFits(p: Policy, s: Session, j: JobId) {
    && j in s.jobs
    && var job := s.jobs[j];
    && Distinct(job.tasks) && Root(j) in job.tasks
    && (forall n | n in job.tasks :: n in s.nodes && s.nodes[n].job == j)
    && (job.authority.External? ==>
          && |job.tasks| <= job.authority.scope.maxTasks <= p.limits.tasks
          && forall n | n in job.tasks :: s.nodes[n].workload in job.authority.scope.workloads)
  }

  ghost predicate Structured(p: Policy, s: Session) {
    && (forall id | id in s.nodes :: NodeFits(p, s, id))
    && (forall j | j in s.jobs :: JobFits(p, s, j))
  }

  ghost predicate EffectFits(s: Session, id: EffectId) {
    && id in s.effects && id.node in s.nodes
    && s.nodes[id.node].parent.Some? && s.nodes[id.node].parent.value in s.nodes
    && var e, made := s.effects[id], NewEffect(s, id);
    && e.source == made.source && e.target == made.target && e.text == made.text
    && (e.status.Prepared? ==> e.nonce.None?)
    && (e.nonce.None? ==> e.status.Prepared? || e.status.Failed? || e.status.Ambiguous?)
  }

  ghost predicate HasStatus(s: Session, id: EffectId, status: Status) {
    id in s.effects && s.effects[id].status == status
  }

  /** A node's moving part: how its computation and its two effects depend on each other. */
  ghost predicate Progressed(s: Session, id: NodeId) {
    && id in s.nodes
    && var v := s.nodes[id];
    && (v.runtimeTask.Some? ==> v.runtimeTask == Some(RuntimeTaskOf(id)))
    && (v.compute.Accepted? || v.compute.Running? || v.compute.ResultReady? ==> v.runtimeTask.Some?)
    && (v.evidence.Some? <==> v.compute.ResultReady?)
    && (id.Root? <==> v.delivery.Local?)
    && (id.Child? ==>
          && (!v.compute.Planned? <==> HasStatus(s, EffectId(id, Proposal), Received))
          && (EffectId(id, Result) in s.effects ==> v.compute.ResultReady?)
          && (v.delivery.Delivered? <==> HasStatus(s, EffectId(id, Result), Received))
          && (v.delivery.ResultSent? ==> EffectId(id, Result) in s.effects)
          && (!v.compute.Planned? || EffectId(id, Proposal) in s.effects ==> AllReady(s, v.dependencies)))
  }

  /** The effects for which a sending intent was ever recorded. */
  ghost function Intents(s: Session): set<EffectId> {
    set id | id in s.effects && s.effects[id].nonce.Some?
  }

  ghost predicate Spent(p: Policy, s: Session) {
    && s.budgets.tasks == |s.nodes| <= p.limits.tasks
    && s.budgets.outbound == |Intents(s)| <= p.limits.outbound
    && s.budgets.gets <= p.limits.gets && s.budgets.inference <= p.limits.inference
  }

  ghost predicate Inv(p: Policy, s: Session) {
    && Structured(p, s)
    && (forall id | id in s.effects :: EffectFits(s, id))
    && (forall id | id in s.nodes :: Progressed(s, id))
    && Spent(p, s)
  }

  // --------------------------------------------------- what may change, and how

  function StatusRank(status: Status): nat {
    match status
    case Prepared => 0
    case Sending => 1
    case Sent => 2
    case Receiving => 3
    case _ => 4
  }

  function ComputeRank(compute: Compute): nat {
    match compute
    case Planned => 0
    case Accepted => 1
    case Running => 2
    case _ => 3
  }

  ghost predicate SameFixedPart(a: Node, b: Node) {
    && a.job == b.job && a.alias == b.alias && a.workload == b.workload && a.parent == b.parent
    && a.dependencies == b.dependencies && a.depth == b.depth
  }

  ghost predicate NodeLater(a: Node, b: Node) {
    && SameFixedPart(a, b)
    && (a.compute == b.compute || ComputeRank(a.compute) < ComputeRank(b.compute))
    && (a.delivery.Local? || a.delivery.Delivered? ==> b.delivery == a.delivery)
    && (a.runtimeTask.Some? ==> b.runtimeTask == a.runtimeTask)
    && (a.evidence.Some? ==> b.evidence == a.evidence)
  }

  ghost predicate EffectLater(a: Effect, b: Effect) {
    && a.source == b.source && a.target == b.target && a.text == b.text
    && (a.status == b.status || StatusRank(a.status) < StatusRank(b.status))
    && (a.nonce.Some? ==> b.nonce == a.nonce)
  }

  ghost predicate JobLater(a: Job, b: Job) {
    a.authority == b.authority && a.flow == b.flow && a.tasks <= b.tasks
  }

  /** `t` is `s` or came after it: nothing is forgotten, reassigned, or taken back. */
  ghost predicate Later(s: Session, t: Session) {
    && (forall id | id in s.nodes :: id in t.nodes && NodeLater(s.nodes[id], t.nodes[id]))
    && (forall id | id in s.effects :: id in t.effects && EffectLater(s.effects[id], t.effects[id]))
    && (forall j | j in s.jobs :: j in t.jobs && JobLater(s.jobs[j], t.jobs[j]))
    && s.budgets.tasks <= t.budgets.tasks && s.budgets.outbound <= t.budgets.outbound
    && s.budgets.gets <= t.budgets.gets && s.budgets.inference <= t.budgets.inference
  }

  lemma LaterTransitive(s: Session, t: Session, u: Session)
    requires Later(s, t) && Later(t, u)
    ensures Later(s, u)
  {
  }

  /** Dependencies that are ready stay ready, with the same evidence. */
  lemma ReadyStays(s: Session, t: Session, ids: seq<NodeId>)
    requires Later(s, t) && AllReady(s, ids)
    requires forall d | d in ids :: s.nodes[d].evidence.Some?
    ensures AllReady(t, ids) && Evidence(t, ids) == Evidence(s, ids)
  {
    forall d | d in ids
      ensures Ready(t, d) && EvidenceOf(t, d) == EvidenceOf(s, d)
    {
      assert NodeLater(s.nodes[d], t.nodes[d]) && Ready(s, d);
    }
  }

  ghost predicate SameStructure(s: Session, t: Session) {
    && t.nodes.Keys == s.nodes.Keys && t.jobs.Keys == s.jobs.Keys
    && (forall id | id in s.nodes :: SameFixedPart(s.nodes[id], t.nodes[id]))
    && (forall j | j in s.jobs :: t.jobs[j].authority == s.jobs[j].authority && t.jobs[j].tasks == s.jobs[j].tasks)
  }

  lemma StructureKept(p: Policy, s: Session, t: Session)
    requires Structured(p, s) && SameStructure(s, t)
    ensures Structured(p, t)
  {
    hide DelegationAllowed, WorkloadAllowed;
    forall id | id in t.nodes
      ensures NodeFits(p, t, id)
    {
      assert NodeFits(p, s, id) && SameFixedPart(s.nodes[id], t.nodes[id]);
      if id.Child? {
        assert SameFixedPart(s.nodes[id.parent], t.nodes[id.parent]);
      }
    }
    forall j | j in t.jobs
      ensures JobFits(p, t, j)
    {
      assert JobFits(p, s, j);
      assert forall n | n in s.jobs[j].tasks :: SameFixedPart(s.nodes[n], t.nodes[n]);
    }
  }

  lemma DependenciesHaveEvidence(p: Policy, s: Session, id: NodeId)
    requires Inv(p, s) && id in s.nodes && AllReady(s, s.nodes[id].dependencies)
    ensures forall d | d in s.nodes[id].dependencies :: s.nodes[d].evidence.Some?
  {
    forall d | d in s.nodes[id].dependencies
      ensures s.nodes[d].evidence.Some?
    {
      assert Ready(s, d) && Progressed(s, d);
    }
  }

  lemma InvNode(p: Policy, s: Session, id: NodeId)
    requires Inv(p, s) && id in s.nodes
    ensures NodeFits(p, s, id) && Progressed(s, id)
  {
  }

  lemma InvEffect(p: Policy, s: Session, id: EffectId)
    requires Inv(p, s) && id in s.effects
    ensures EffectFits(s, id) && NodeFits(p, s, id.node) && Progressed(s, id.node)
  {
  }

  lemma InvSpent(p: Policy, s: Session)
    requires Inv(p, s)
    ensures Structured(p, s) && Spent(p, s)
  {
  }

  lemma LaterNode(s: Session, t: Session, id: NodeId)
    requires Later(s, t) && id in s.nodes
    ensures id in t.nodes && NodeLater(s.nodes[id], t.nodes[id])
  {
  }

  lemma LaterEffect(s: Session, t: Session, id: EffectId)
    requires Later(s, t) && id in s.effects
    ensures id in t.effects && EffectLater(s.effects[id], t.effects[id])
  {
  }

  lemma DependenciesStay(p: Policy, s: Session, t: Session, id: NodeId)
    requires Inv(p, s) && Later(s, t) && id in s.nodes && AllReady(s, s.nodes[id].dependencies)
    ensures AllReady(t, s.nodes[id].dependencies)
    ensures Evidence(t, s.nodes[id].dependencies) == Evidence(s, s.nodes[id].dependencies)
  {
    DependenciesHaveEvidence(p, s, id);
    ReadyStays(s, t, s.nodes[id].dependencies);
  }

  lemma EffectStillFits(p: Policy, s: Session, t: Session, id: EffectId)
    requires Inv(p, s) && Later(s, t)
    requires id in s.effects && id in t.effects && t.effects[id] == s.effects[id]
    ensures EffectFits(t, id)
  {
    hide Inv, Later, AllReady, Evidence, WorkloadAllowed, DelegationAllowed, RuntimeTaskOf;
    InvEffect(p, s, id);
    LaterNode(s, t, id.node);
    LaterNode(s, t, s.nodes[id.node].parent.value);
    if id.kind.Proposal? {
      DependenciesStay(p, s, t, id.node);
    }
  }

  lemma NodeStillProgressed(p: Policy, s: Session, t: Session, id: NodeId)
    requires Inv(p, s) && Later(s, t)
    requires id in s.nodes && id in t.nodes && t.nodes[id] == s.nodes[id]
    requires forall k: Kind :: EffectId(id, k) in t.effects ==>
      EffectId(id, k) in s.effects && t.effects[EffectId(id, k)] == s.effects[EffectId(id, k)]
    ensures Progressed(t, id)
  {
    hide Inv, Later, AllReady, Evidence, NodeFits, RuntimeTaskOf;
    InvNode(p, s, id);
    if id.Child? && (!s.nodes[id].compute.Planned? || EffectId(id, Proposal) in s.effects) {
      DependenciesStay(p, s, t, id);
    }
    if EffectId(id, Proposal) in s.effects {
      LaterEffect(s, t, EffectId(id, Proposal));
    }
    if EffectId(id, Result) in s.effects {
      LaterEffect(s, t, EffectId(id, Result));
    }
  }

  /** What the touched records must satisfy for the untouched ones to keep the invariant as well. */
  lemma RestKept(p: Policy, s: Session, t: Session, nodes: set<NodeId>, effects: set<EffectId>)
    requires Inv(p, s) && Later(s, t) && Structured(p, t)
    requires forall id | id in t.nodes && id !in nodes :: id in s.nodes && t.nodes[id] == s.nodes[id]
    requires forall id | id in t.effects && id !in effects :: id in s.effects && t.effects[id] == s.effects[id]
    requires forall id | id in effects :: id.node in nodes && (id in t.effects ==> EffectFits(t, id))
    requires forall id | id in nodes && id in t.nodes :: Progressed(t, id)
    requires Spent(p, t)
    ensures Inv(p, t)
  {
    hide Later, Structured, NodeFits, EffectFits, Progressed, Spent;
    forall id | id in t.effects
      ensures EffectFits(t, id)
    {
      if id !in effects {
        EffectStillFits(p, s, t, id);
      }
    }
    forall id | id in t.nodes
      ensures Progressed(t, id)
    {
      if id !in nodes {
        NodeStillProgressed(p, s, t, id);
      }
    }
  }

  // ------------------------------------------------ shapes of change, and each action

  ghost predicate SameJobs(s: Session, t: Session) {
    t.jobs.Keys == s.jobs.Keys
    && forall j | j in s.jobs :: t.jobs[j].authority == s.jobs[j].authority && t.jobs[j].tasks == s.jobs[j].tasks
                                 && t.jobs[j].flow == s.jobs[j].flow
  }

  ghost predicate BudgetsGrow(s: Session, t: Session) {
    && s.budgets.tasks <= t.budgets.tasks && s.budgets.outbound <= t.budgets.outbound
    && s.budgets.gets <= t.budgets.gets && s.budgets.inference <= t.budgets.inference
  }

  ghost predicate Kept(p: Policy, s: Session, t: Session) {
    Inv(p, t) && Later(s, t)
  }

  lemma SameStructureKept(p: Policy, s: Session, t: Session)
    requires Inv(p, s) && SameJobs(s, t) && t.nodes.Keys == s.nodes.Keys
    requires forall id | id in s.nodes :: SameFixedPart(s.nodes[id], t.nodes[id])
    ensures Structured(p, t)
  {
    hide Structured, JobFits, NodeFits;
    StructureKept(p, s, t);
  }

  lemma OneLater(s: Session, t: Session, id: NodeId, v: Node, eid: EffectId, e: Effect)
    requires SameJobs(s, t) && BudgetsGrow(s, t)
    requires id in s.nodes && t.nodes == s.nodes[id := v] && NodeLater(s.nodes[id], v)
    requires t.effects == s.effects[eid := e] && (eid in s.effects ==> EffectLater(s.effects[eid], e))
    ensures Later(s, t) && t.nodes.Keys == s.nodes.Keys
    ensures forall n | n in s.nodes :: SameFixedPart(s.nodes[n], t.nodes[n])
  {
  }

  /** One node and at most one of its effects change. */
  lemma EffectChanges(p: Policy, s: Session, t: Session, id: EffectId, v: Node, e: Effect)
    requires Inv(p, s) && SameJobs(s, t) && BudgetsGrow(s, t)
    requires id.node in s.nodes && t.nodes == s.nodes[id.node := v] && NodeLater(s.nodes[id.node], v)
    requires t.effects == s.effects[id := e] && (id in s.effects ==> EffectLater(s.effects[id], e))
    requires EffectFits(t, id) && Progressed(t, id.node) && Spent(p, t)
    ensures Kept(p, s, t)
  {
    hide Inv, Later, Structured, EffectFits, EffectLater, NodeLater, Progressed, Spent, SameJobs, BudgetsGrow, SameFixedPart;
    OneLater(s, t, id.node, v, id, e);
    SameStructureKept(p, s, t);
    RestKept(p, s, t, {id.node}, {id});
  }

  lemma NodeChanges(p: Policy, s: Session, t: Session, id: NodeId, v: Node)
    requires Inv(p, s) && SameJobs(s, t) && BudgetsGrow(s, t)
    requires id in s.nodes && t.nodes == s.nodes[id := v] && NodeLater(s.nodes[id], v)
    requires t.effects == s.effects
    requires Progressed(t, id) && Spent(p, t)
    ensures Kept(p, s, t)
  {
    hide Inv, Structured, EffectFits, EffectLater, NodeLater, Progressed, Spent, SameJobs, BudgetsGrow, SameFixedPart;
    NodeLaterOnly(s, t, id, v);
    SameStructureKept(p, s, t);
    hide Later;
    RestKept(p, s, t, {id}, {});
  }

  lemma NodeLaterOnly(s: Session, t: Session, id: NodeId, v: Node)
    requires SameJobs(s, t) && BudgetsGrow(s, t)
    requires id in s.nodes && t.nodes == s.nodes[id := v] && NodeLater(s.nodes[id], v)
    requires t.effects == s.effects
    ensures Later(s, t) && t.nodes.Keys == s.nodes.Keys
    ensures forall n | n in s.nodes :: SameFixedPart(s.nodes[n], t.nodes[n])
  {
  }

  /** Only jobs' statuses, intake records, the lifecycle or the read and inference budgets change. */
  lemma RecordsStay(p: Policy, s: Session, t: Session)
    requires Inv(p, s) && SameJobs(s, t) && BudgetsGrow(s, t)
    requires t.nodes == s.nodes && t.effects == s.effects && Spent(p, t)
    ensures Kept(p, s, t)
  {
    hide Inv, Structured, EffectFits, Progressed, Spent;
    SameStructureKept(p, s, t);
    assert Later(s, t);
    hide Later, SameJobs;
    RestKept(p, s, t, {}, {});
  }

  /** Statuses of several effects change, none from or to `Received`. */
  ghost predicate OnlyDoubts(s: Session, t: Session) {
    && t.effects.Keys == s.effects.Keys
    && forall e | e in s.effects ::
         || t.effects[e] == s.effects[e]
         || (!s.effects[e].status.Received? && !t.effects[e].status.Received? && !t.effects[e].status.Prepared?
             && t.effects[e] == s.effects[e].(status := t.effects[e].status)
             && EffectLater(s.effects[e], t.effects[e])
             && (t.effects[e].nonce.None? ==> t.effects[e].status.Ambiguous? || t.effects[e].status.Failed?))
  }

  lemma StatusKeepsEffect(p: Policy, s: Session, t: Session, id: EffectId)
    requires Inv(p, s) && OnlyDoubts(s, t) && t.nodes == s.nodes && id in t.effects
    ensures EffectFits(t, id)
  {
    hide Inv, NodeFits, Progressed, RuntimeTaskOf;
    InvEffect(p, s, id);
    assert Evidence(t, s.nodes[id.node].dependencies) == Evidence(s, s.nodes[id.node].dependencies);
  }

  lemma StatusKeepsNode(p: Policy, s: Session, t: Session, id: NodeId)
    requires Inv(p, s) && OnlyDoubts(s, t) && t.nodes == s.nodes && id in t.nodes
    ensures Progressed(t, id)
  {
    hide Inv, NodeFits, RuntimeTaskOf;
    InvNode(p, s, id);
    assert AllReady(s, s.nodes[id].dependencies) ==> AllReady(t, s.nodes[id].dependencies);
    hide AllReady, EffectLater;
  }

  lemma StatusesKeepBudget(p: Policy, s: Session, t: Session)
    requires Spent(p, s) && OnlyDoubts(s, t) && t.nodes == s.nodes
    requires t.budgets.tasks == s.budgets.tasks && t.budgets.outbound == s.budgets.outbound
    requires t.budgets.gets <= p.limits.gets && t.budgets.inference <= p.limits.inference
    ensures Spent(p, t)
  {
    assert Intents(t) == Intents(s);
  }

  lemma StatusesLater(s: Session, t: Session)
    requires SameJobs(s, t) && BudgetsGrow(s, t) && OnlyDoubts(s, t) && t.nodes == s.nodes
    ensures Later(s, t) && t.effects.Keys == s.effects.Keys
  {
  }

  lemma StatusesChange(p: Policy, s: Session, t: Session)
    requires Inv(p, s) && SameJobs(s, t) && BudgetsGrow(s, t) && OnlyDoubts(s, t)
    requires t.nodes == s.nodes && t.budgets.tasks == s.budgets.tasks && t.budgets.outbound == s.budgets.outbound
    requires t.budgets.gets <= p.limits.gets && t.budgets.inference <= p.limits.inference
    ensures Kept(p, s, t)
  {
    hide Inv, Structured, EffectFits, Progressed, Spent, Later, OnlyDoubts, SameJobs;
    InvSpent(p, s);
    StatusesKeepBudget(p, s, t);
    StatusesLater(s, t);
    assert SameJobs(s, t) && forall id | id in s.nodes :: SameFixedPart(s.nodes[id], t.nodes[id]);
    SameStructureKept(p, s, t);
    forall id | id in t.effects
      ensures EffectFits(t, id)
    {
      StatusKeepsEffect(p, s, t, id);
    }
    forall id | id in t.nodes
      ensures Progressed(t, id)
    {
      StatusKeepsNode(p, s, t, id);
    }
    InvFrom(p, t);
  }

  lemma InvFrom(p: Policy, s: Session)
    requires Structured(p, s) && Spent(p, s)
    requires forall id | id in s.effects :: EffectFits(s, id)
    requires forall id | id in s.nodes :: Progressed(s, id)
    ensures Inv(p, s)
  {
  }
}
