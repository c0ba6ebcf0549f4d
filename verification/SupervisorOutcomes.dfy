/** What operator flows hand to whom, what outside offers lead to, and what a reopen makes of each record. */
module SupervisorOutcomes {
  import opened Wrappers
  import opened Sessions
  import opened SessionSafety
  import opened SessionSteps
  import opened SessionRuns
  import opened Supervisor

  // ----------------------------------------------------------------------------- flows

  /** Every role has its own work. */
  lemma EachRoleHasItsWork(a: Alias)
    ensures FlowWorkload(a) == "workload.coordination" <==> a.Alice?
    ensures FlowWorkload(a) == "workload.research" <==> a.Bob?
    ensures FlowWorkload(a) == "workload.engineering" <==> a.Charlie?
    ensures FlowWorkload(a) == "workload.review" <==> a.Dave?
    ensures FlowWorkload(a) == "workload.specialist" <==> a.Eve?
  {
    assert "workload.coordination"[9] == 'c' && "workload.research"[9] == 'r' && "workload.research"[11] == 's';
    assert "workload.engineering"[9] == 'e' && "workload.review"[9] == 'r' && "workload.review"[11] == 'v';
    assert "workload.specialist"[9] == 's';
  }

  /** A flow that can go on: its last task is there, and fewer tasks than peers. */
  predicate Goes(s: Session, j: JobId) {
    && j in s.jobs && s.jobs[j].flow.Some? && !s.jobs[j].status.Blocked?
    && 0 < |s.jobs[j].tasks| < |s.jobs[j].flow.value|
    && s.jobs[j].tasks[|s.jobs[j].tasks| - 1] in s.nodes
  }

  /** The last task failed, is in doubt, or needs the operator. */
  predicate Stuck(v: Node) {
    v.compute.ComputeFailed? || v.compute.ComputeAmbiguous? || v.delivery.NeedsOperator?
  }

  /** What the flow asks for next: the work of the next peer's role, from the last task and on nothing else. */
  function NextDelegation(s: Session, j: JobId, payload: Hash): Action
    requires Goes(s, j)
  {
    var last := s.jobs[j].tasks[|s.jobs[j].tasks| - 1];
    var target := s.jobs[j].flow.value[|s.jobs[j].tasks|];
    Delegate(last, target, FlowWorkload(target), payload, [last])
  }

  /** A flow goes on exactly from finished, delivered work it can pass on, blocks when it cannot, and otherwise waits. */
  lemma FlowDecides(p: Policy, m: Memory, j: JobId, input: FlowInput)
    ensures var s, a := m.data, FlowAction(p, m, j, input);
      && (!Goes(s, j) ==> a.None?)
      && (Goes(s, j) ==>
            var last := s.jobs[j].tasks[|s.jobs[j].tasks| - 1];
            && (Stuck(s.nodes[last]) ==> a == Some(Block(j)))
            && (!Stuck(s.nodes[last]) && !Ready(s, last) ==> a.None?)
            && (!Stuck(s.nodes[last]) && Ready(s, last) && input.payload.None? ==> a == Some(Block(j)))
            && (!Stuck(s.nodes[last]) && Ready(s, last) && input.payload.Some? ==>
                  var next := NextDelegation(s, j, input.payload.value);
                  && (DelegateId(next) !in s.nodes && input.live && MemoryEnabled(p, m, next) ==> a == Some(next))
                  && (DelegateId(next) !in s.nodes && !(input.live && MemoryEnabled(p, m, next)) ==> a == Some(Block(j)))))
  {
    hide DelegateEnabled;
  }

  /** The tasks of a flow after its first are one chain of its peers' own work, in the order of the flow. */
  ghost predicate FollowsPlan(s: Session, j: JobId) {
    j in s.jobs && s.jobs[j].flow.Some? ==>
      forall k | 1 <= k < |s.jobs[j].tasks| :: IsLink(s, s.jobs[j], k)
  }

  ghost predicate IsLink(s: Session, job: Job, k: nat)
    requires job.flow.Some? && 1 <= k < |job.tasks|
  {
    && k < |job.flow.value| && job.tasks[k] in s.nodes
    && var v := s.nodes[job.tasks[k]];
    && v.alias == job.flow.value[k] && v.workload == FlowWorkload(job.flow.value[k])
    && v.parent == Some(job.tasks[k - 1]) && v.dependencies == [job.tasks[k - 1]]
  }

  lemma FlowKeepsPlan(p: Policy, m: Memory, j: JobId, input: FlowInput, i: JobId)
    requires Inv(p, m.data) && FollowsPlan(m.data, i) && FlowAction(p, m, j, input).Some?
    ensures var a := FlowAction(p, m, j, input).value;
      MemoryEnabled(p, m, a) && FollowsPlan(ApplyMemory(p, m, a).data, i)
  {
    hide Inv, DelegateEnabled, FlowWorkload, Ready;
    var s, a := m.data, FlowAction(p, m, j, input).value;
    var t := ApplyMemory(p, m, a).data;
    if a.Delegate? {
      var last := s.jobs[j].tasks[|s.jobs[j].tasks| - 1];
      LastIsOwn(p, s, j);
      assert a == NextDelegation(s, j, input.payload.value);
      if i in t.jobs && t.jobs[i].flow.Some? {
        forall k | 1 <= k < |t.jobs[i].tasks|
          ensures IsLink(t, t.jobs[i], k)
        {
          if i == j && k == |s.jobs[j].tasks| {
            assert t.jobs[i].tasks[k] == DelegateId(a);
          } else {
            assert t.jobs[i].tasks[k] == s.jobs[i].tasks[k] && IsLink(s, s.jobs[i], k);
          }
        }
      }
    } else {
      assert t.nodes == s.nodes;
      if i in t.jobs && t.jobs[i].flow.Some? {
        forall k | 1 <= k < |t.jobs[i].tasks|
          ensures IsLink(t, t.jobs[i], k)
        {
          assert IsLink(s, s.jobs[i], k);
        }
      }
    }
  }

  lemma LastIsOwn(p: Policy, s: Session, j: JobId)
    requires Inv(p, s) && j in s.jobs && s.jobs[j].tasks != []
    ensures var last := s.jobs[j].tasks[|s.jobs[j].tasks| - 1]; last in s.nodes && s.nodes[last].job == j
  {
    assert JobFits(p, s, j);
  }

  /**
   However many flows are advanced, and however often: task k of a flow is on its peer k, with that role's own
   workload, as the child of task k - 1 and dependent on it alone.
   */
  lemma {:induction false} FlowsFollowTheirPlan(p: Policy, m: Memory, jobs: seq<JobId>, input: JobId -> FlowInput, i: JobId)
    requires Inv(p, m.data) && FollowsPlan(m.data, i)
    ensures var n := AdvanceFlows(p, m, jobs, input).memory; Inv(p, n.data) && FollowsPlan(n.data, i)
    decreases |jobs|
  {
    hide Inv, FlowAction, FollowsPlan, MemoryEnabled, ApplyMemory, Kept, Later;
    if jobs != [] {
      var front, j := jobs[..|jobs| - 1], jobs[|jobs| - 1];
      FlowsFollowTheirPlan(p, m, front, input, i);
      var before := AdvanceFlows(p, m, front, input).memory;
      var a := FlowAction(p, before, j, input(j));
      if a.Some? {
        FlowKeepsPlan(p, before, j, input(j), i);
        ActionKept(p, before, a.value);
        KeptGives(p, before.data, ApplyMemory(p, before, a.value).data);
      }
    }
  }

  // -------------------------------------------------------------------- outside offers

  /** The first offer under a key is recorded as it came; the same again changes nothing; a different one rejects both and blocks the job. */
  lemma OfferDecides(p: Policy, m: Memory, record: IntakeKey, offer: Offer)
    ensures var s, a := m.data, OfferAction(m.data, record, offer);
      && (offer.key in s.intakes && s.intakes[offer.key].hash == offer.hash ==> a.None?)
      && (a.Some? ==> MemoryEnabled(p, m, a.value))
      && (offer.key !in s.intakes ==>
            && a.Some?
            && var t := ApplyMemory(p, m, a.value).data;
            && t.jobs == s.jobs && t.nodes == s.nodes && t.effects == s.effects
            && t.intakes == s.intakes[offer.key :=
                 Intake(if offer.waiting then IntakeWaiting else IntakeRejected, offer.workload, offer.hash, None)])
      && (offer.key in s.intakes && s.intakes[offer.key].hash != offer.hash ==>
            && a.Some?
            && var t, prior := ApplyMemory(p, m, a.value).data, s.intakes[offer.key];
            && t.nodes == s.nodes && t.effects == s.effects
            && offer.key in t.intakes && t.intakes[offer.key].status.IntakeRejected?
            && record in t.intakes && t.intakes[record].status.IntakeRejected?
            && (prior.job.Some? && prior.job.value in s.jobs ==> prior.job.value in t.jobs && t.jobs[prior.job.value].status.Blocked?)
            && (forall j | j in s.jobs && prior.job != Some(j) :: j in t.jobs && t.jobs[j] == s.jobs[j]))
  {
  }

  // -------------------------------------------------------------------------- reopening

  /** What a reopen makes of one effect: received and failed ones stay, all others are in doubt. */
  lemma RestoredEffectDecides(e: Effect)
    ensures var f := RestoredEffect(e);
      && f == e.(status := f.status)
      && (f.status.Received? <==> e.status.Received?) && (f.status.Failed? <==> e.status.Failed?)
      && (f.status.Ambiguous? <==> !e.status.Received? && !e.status.Failed?)
  {
  }

  /**
   What a reopen makes of one node: a root that was never accepted is in doubt; an accepted or running task is what
   its peer's own runtime says of it, and in doubt when that cannot say; nothing else is recomputed.
   */
  lemma RestoredNodeDecides(s: Session, id: NodeId, fate: Fate)
    requires id in s.nodes
    ensures var v, w := s.nodes[id], RestoredNode(s, id, fate); var begun := v.compute.Accepted? || v.compute.Running?;
      && w == v.(compute := w.compute, delivery := w.delivery, evidence := w.evidence)
      && (!begun && !(v.compute.Planned? && v.parent.None?) ==> w.compute == v.compute && w.evidence == v.evidence)
      && (v.compute.Planned? && v.parent.None? ==> w.compute.ComputeAmbiguous?)
      && (begun ==>
            && (w.compute.ResultReady? <==> fate.Succeeded?) && (fate.Succeeded? ==> w.evidence == Some(fate.result))
            && (w.compute.ComputeFailed? <==> fate.TaskFailed?)
            && (w.compute.Accepted? <==> v.compute.Accepted? && fate.Untouched?)
            && (w.compute.ComputeAmbiguous? <==> fate.Missing? || fate.Interrupted? || (fate.Untouched? && v.compute.Running?))
            && (!fate.Succeeded? ==> w.evidence == v.evidence))
      && w.delivery == (if Lost(s, id) then NeedsOperator else v.delivery)
  {
    hide Lost;
  }
}
