/** Reopening as the supervisor does it, effect by effect, node by node, job by job; and what it adds up to. */
module SessionReopen {
  import opened Wrappers
  import opened Sessions

  // -------------------------------------------------------------------- effects

  predicate LostFrom(s: Session, done: set<EffectId>, id: NodeId) {
    exists e | e in done :: e.node == id && Unreceived(s, e)
  }

  predicate LosesJob(s: Session, done: set<EffectId>, job: JobId) {
    exists e | e in done :: Unreceived(s, e) && e.node in s.nodes && s.nodes[e.node].job == job
  }

  function EffectsAfter(s: Session, done: set<EffectId>): map<EffectId, Effect> {
    map e | e in s.effects :: if e in done then RestoredEffect(s.effects[e]) else s.effects[e]
  }

  function NodesLost(s: Session, done: set<EffectId>): map<NodeId, Node> {
    map id | id in s.nodes :: if LostFrom(s, done, id) then s.nodes[id].(delivery := NeedsOperator) else s.nodes[id]
  }

  function JobsLost(s: Session, done: set<EffectId>): map<JobId, Job> {
    map j | j in s.jobs :: if LosesJob(s, done, j) then s.jobs[j].(status := Blocked) else s.jobs[j]
  }

  /** The session after the effects in `done` were looked at. */
  function AfterEffects(s: Session, done: set<EffectId>): Session {
    s.(effects := EffectsAfter(s, done), nodes := NodesLost(s, done), jobs := JobsLost(s, done))
  }

  predicate WellLinked(s: Session) {
    && (forall e | e in s.effects :: e.node in s.nodes)
    && (forall id | id in s.nodes :: s.nodes[id].job in s.jobs)
  }

  method GiveUpEffects(s: Session) returns (t: Session)
    requires WellLinked(s)
    ensures t == AfterEffects(s, s.effects.Keys)
  {
    hide LostFrom, LosesJob;
    t := s;
    var todo, done := s.effects.Keys, {};
    NothingLost(s);
    while todo != {}
      invariant todo + done == s.effects.Keys && todo !! done
      invariant t == AfterEffects(s, done)
      decreases todo
    {
      var e :| e in todo;
      EffectsStep(s, done, e);
      NodesLostStep(s, done, e);
      JobsLostStep(s, done, e);
      if !t.effects[e].status.Received? {
        var node := t.nodes[e.node];
        var job := t.jobs[node.job];
        t := t.(effects := t.effects[e := RestoredEffect(t.effects[e])],
                nodes := t.nodes[e.node := node.(delivery := NeedsOperator)],
                jobs := t.jobs[node.job := job.(status := Blocked)]);
      } else {
        assert EffectsAfter(s, done)[e := s.effects[e]] == EffectsAfter(s, done);
      }
      todo, done := todo - {e}, done + {e};
    }
    assert done == s.effects.Keys;
  }

  lemma NothingLost(s: Session)
    ensures AfterEffects(s, {}) == s
  {
    assert EffectsAfter(s, {}) == s.effects && NodesLost(s, {}) == s.nodes && JobsLost(s, {}) == s.jobs;
  }

  lemma EffectsStep(s: Session, done: set<EffectId>, e: EffectId)
    requires e in s.effects
    ensures EffectsAfter(s, done + {e}) == EffectsAfter(s, done)[e := RestoredEffect(s.effects[e])]
  {
  }

  lemma NodesLostStep(s: Session, done: set<EffectId>, e: EffectId)
    requires e.node in s.nodes
    ensures NodesLost(s, done + {e}) ==
      if Unreceived(s, e) then NodesLost(s, done)[e.node := s.nodes[e.node].(delivery := NeedsOperator)] else NodesLost(s, done)
  {
    forall id | id in s.nodes
      ensures LostFrom(s, done + {e}, id) <==> LostFrom(s, done, id) || (e.node == id && Unreceived(s, e))
    {
    }
    hide LostFrom;
  }

  lemma JobsLostStep(s: Session, done: set<EffectId>, e: EffectId)
    requires e.node in s.nodes && s.nodes[e.node].job in s.jobs
    ensures var job := s.nodes[e.node].job;
      JobsLost(s, done + {e}) ==
        if Unreceived(s, e) then JobsLost(s, done)[job := s.jobs[job].(status := Blocked)] else JobsLost(s, done)
  {
    forall j | j in s.jobs
      ensures LosesJob(s, done + {e}, j) <==> LosesJob(s, done, j) || (Unreceived(s, e) && s.nodes[e.node].job == j)
    {
    }
    hide LosesJob;
  }

  // ---------------------------------------------------------------------- nodes

  function Recomputed(node: Node, fate: Fate): Node {
    var compute := RestoredCompute(node, fate);
    node.(compute := compute,
          evidence := if compute != node.compute && compute.ResultReady? then Some(fate.result) else node.evidence)
  }

  predicate StopsJob(s: Session, done: set<NodeId>, fates: map<NodeId, Fate>, job: JobId) {
    exists id | id in done :: id in s.nodes && s.nodes[id].job == job && StoppedShort(s.nodes[id], FateOf(fates, id))
  }

  function NodesAfter(s: Session, done: set<NodeId>, fates: map<NodeId, Fate>): map<NodeId, Node> {
    map id | id in s.nodes :: if id in done then Recomputed(s.nodes[id], FateOf(fates, id)) else s.nodes[id]
  }

  function JobsStopped(s: Session, done: set<NodeId>, fates: map<NodeId, Fate>): map<JobId, Job> {
    map j | j in s.jobs :: if StopsJob(s, done, fates, j) then s.jobs[j].(status := Blocked) else s.jobs[j]
  }

  function AfterNodes(s: Session, done: set<NodeId>, fates: map<NodeId, Fate>): Session {
    s.(nodes := NodesAfter(s, done, fates), jobs := JobsStopped(s, done, fates))
  }

  method RecomputeNodes(s: Session, fates: map<NodeId, Fate>) returns (t: Session)
    requires WellLinked(s)
    ensures t == AfterNodes(s, s.nodes.Keys, fates)
  {
    hide StoppedShort, Recomputed;
    t := s;
    var todo, done := s.nodes.Keys, {};
    assert NodesAfter(s, done, fates) == s.nodes && JobsStopped(s, done, fates) == s.jobs;
    while todo != {}
      invariant todo + done == s.nodes.Keys && todo !! done
      invariant t == AfterNodes(s, done, fates)
      decreases todo
    {
      hide StopsJob;
      var id :| id in todo;
      NodesStep(s, done, fates, id);
      JobsStoppedStep(s, done, fates, id);
      var node, fate := t.nodes[id], FateOf(fates, id);
      t := t.(nodes := t.nodes[id := Recomputed(node, fate)]);
      if StoppedShort(node, fate) {
        t := t.(jobs := t.jobs[node.job := t.jobs[node.job].(status := Blocked)]);
      }
      todo, done := todo - {id}, done + {id};
    }
    assert done == s.nodes.Keys;
  }

  lemma NodesStep(s: Session, done: set<NodeId>, fates: map<NodeId, Fate>, id: NodeId)
    requires id in s.nodes
    ensures NodesAfter(s, done + {id}, fates) == NodesAfter(s, done, fates)[id := Recomputed(s.nodes[id], FateOf(fates, id))]
  {
    hide Recomputed;
  }

  lemma JobsStoppedStep(s: Session, done: set<NodeId>, fates: map<NodeId, Fate>, id: NodeId)
    requires id in s.nodes && s.nodes[id].job in s.jobs
    ensures var job := s.nodes[id].job;
      JobsStopped(s, done + {id}, fates) ==
        if StoppedShort(s.nodes[id], FateOf(fates, id)) then JobsStopped(s, done, fates)[job := s.jobs[job].(status := Blocked)]
        else JobsStopped(s, done, fates)
  {
    hide StoppedShort;
    forall j | j in s.jobs
      ensures StopsJob(s, done + {id}, fates, j) <==>
        StopsJob(s, done, fates, j) || (s.nodes[id].job == j && StoppedShort(s.nodes[id], FateOf(fates, id)))
    {
    }
    hide StopsJob;
  }

  // ----------------------------------------------------------------------- jobs

  function AfterJobs(s: Session, done: set<JobId>): Session {
    s.(jobs := map j | j in s.jobs ::
         if j in done && Finished(s, s.jobs[j]) then s.jobs[j].(status := Completed) else s.jobs[j])
  }

  method FinishJobs(s: Session) returns (t: Session)
    ensures t == CompleteJobs(s)
  {
    hide AllReady;
    t := s;
    var todo, done := s.jobs.Keys, {};
    assert t.jobs == AfterJobs(s, done).jobs;
    while todo != {}
      invariant todo + done == s.jobs.Keys && todo !! done
      invariant t == AfterJobs(s, done)
      decreases todo
    {
      var j :| j in todo;
      ReadyByNodes(t, s, t.jobs[j].tasks);
      if Finished(t, t.jobs[j]) {
        t := t.(jobs := t.jobs[j := t.jobs[j].(status := Completed)]);
      }
      todo, done := todo - {j}, done + {j};
      assert t.jobs == AfterJobs(s, done).jobs;
    }
    assert t.jobs == CompleteJobs(s).jobs;
  }

  lemma ReadyByNodes(s: Session, t: Session, ids: seq<NodeId>)
    requires t.nodes == s.nodes
    ensures AllReady(s, ids) == AllReady(t, ids)
  {
  }

  // -------------------------------------------------------------------- together

  lemma LostFromAll(s: Session, id: NodeId)
    ensures LostFrom(s, s.effects.Keys, id) <==> Lost(s, id)
  {
    if LostFrom(s, s.effects.Keys, id) {
      var e :| e in s.effects.Keys && e.node == id && Unreceived(s, e);
      assert e == EffectId(e.node, e.kind) && (e.kind == Proposal || e.kind == Result);
    }
    if Lost(s, id) {
      var e := if Unreceived(s, EffectId(id, Proposal)) then EffectId(id, Proposal) else EffectId(id, Result);
      assert e in s.effects.Keys && e.node == id && Unreceived(s, e);
    }
  }

  lemma StoppedTheSame(s: Session, fates: map<NodeId, Fate>, id: NodeId)
    requires id in s.nodes
    ensures var t := AfterEffects(s, s.effects.Keys);
      && t.nodes[id].job == s.nodes[id].job
      && (StoppedShort(t.nodes[id], FateOf(fates, id)) <==> StoppedShort(s.nodes[id], FateOf(fates, id)))
      && Recomputed(t.nodes[id], FateOf(fates, id)) == RestoredNode(s, id, FateOf(fates, id))
  {
    LostFromAll(s, id);
    hide Lost, LostFrom;
    DeliveryDoesNotMatter(s.nodes[id], AfterEffects(s, s.effects.Keys).nodes[id], FateOf(fates, id));
  }

  lemma BlockedTheSame(s: Session, fates: map<NodeId, Fate>, j: JobId)
    requires WellLinked(s)
    ensures var t := AfterEffects(s, s.effects.Keys);
      RestoreBlocks(s, j, fates) <==> LosesJob(s, s.effects.Keys, j) || StopsJob(t, s.nodes.Keys, fates, j)
  {
    hide StoppedShort, RestoredNode, Recomputed;
    var t := AfterEffects(s, s.effects.Keys);
    if RestoreBlocks(s, j, fates) {
      var id :| id in s.nodes && s.nodes[id].job == j && (Lost(s, id) || StoppedShort(s.nodes[id], FateOf(fates, id)));
      LostFromAll(s, id);
      StoppedTheSame(s, fates, id);
    }
    if LosesJob(s, s.effects.Keys, j) {
      var e :| e in s.effects.Keys && Unreceived(s, e) && e.node in s.nodes && s.nodes[e.node].job == j;
      LostFromAll(s, e.node);
      assert Lost(s, e.node);
    }
    if StopsJob(t, s.nodes.Keys, fates, j) {
      var id :| id in s.nodes.Keys && id in t.nodes && t.nodes[id].job == j && StoppedShort(t.nodes[id], FateOf(fates, id));
      StoppedTheSame(s, fates, id);
    }
  }

  lemma DeliveryDoesNotMatter(a: Node, b: Node, fate: Fate)
    requires b == a.(delivery := b.delivery)
    ensures StoppedShort(a, fate) <==> StoppedShort(b, fate)
    ensures Recomputed(b, fate) == Recomputed(a, fate).(delivery := b.delivery)
  {
  }

  lemma NodesRestore(s: Session, fates: map<NodeId, Fate>)
    ensures NodesAfter(AfterEffects(s, s.effects.Keys), s.nodes.Keys, fates) == RestoredRecords(s, fates).nodes
    ensures forall id | id in s.nodes :: AfterEffects(s, s.effects.Keys).nodes[id].job == s.nodes[id].job
  {
    hide LostFrom, LosesJob, Lost, RestoreBlocks, StoppedShort, RestoredNode, Recomputed, EffectsAfter, JobsLost;
    var t := AfterEffects(s, s.effects.Keys);
    var u, v := NodesAfter(t, s.nodes.Keys, fates), RestoredRecords(s, fates).nodes;
    forall id | id in s.nodes
      ensures u[id] == v[id] && t.nodes[id].job == s.nodes[id].job
    {
      StoppedTheSame(s, fates, id);
    }
    assert u == v;
  }

  lemma JobsRestore(s: Session, fates: map<NodeId, Fate>)
    requires WellLinked(s)
    ensures JobsStopped(AfterEffects(s, s.effects.Keys), s.nodes.Keys, fates) == RestoredRecords(s, fates).jobs
  {
    hide LostFrom, LosesJob, StopsJob, RestoreBlocks, RestoredNode, EffectsAfter, NodesLost;
    var t := AfterEffects(s, s.effects.Keys);
    var u, v := JobsStopped(t, s.nodes.Keys, fates), RestoredRecords(s, fates).jobs;
    forall j | j in s.jobs
      ensures u[j] == v[j]
    {
      BlockedTheSame(s, fates, j);
    }
    assert u == v;
  }

  lemma EffectsRestore(s: Session, fates: map<NodeId, Fate>)
    requires WellLinked(s)
    ensures EffectsAfter(s, s.effects.Keys) == RestoredRecords(s, fates).effects
    ensures WellLinked(AfterEffects(s, s.effects.Keys)) && AfterEffects(s, s.effects.Keys).nodes.Keys == s.nodes.Keys
  {
    hide LostFrom, LosesJob, RestoredNode, RestoredJob;
  }

  lemma PassesRestore(s: Session, fates: map<NodeId, Fate>)
    requires WellLinked(s)
    ensures var t := AfterEffects(s, s.effects.Keys);
      WellLinked(t) && t.nodes.Keys == s.nodes.Keys && AfterNodes(t, s.nodes.Keys, fates) == RestoredRecords(s, fates)
  {
    hide WellLinked, EffectsAfter, NodesLost, JobsLost, NodesAfter, JobsStopped, RestoredNode, RestoredJob;
    NodesRestore(s, fates);
    JobsRestore(s, fates);
    EffectsRestore(s, fates);
  }

  /** Effect by effect, node by node, job by job: exactly the restored session. */
  method RestoreSession(s: Session, fates: map<NodeId, Fate>) returns (t: Session)
    requires WellLinked(s)
    ensures t == Restore(s, fates)
  {
    hide WellLinked, AfterEffects, AfterNodes, RestoredRecords, CompleteJobs;
    PassesRestore(s, fates);
    t := GiveUpEffects(s);
    t := RecomputeNodes(t, fates);
    t := FinishJobs(t);
  }
}
