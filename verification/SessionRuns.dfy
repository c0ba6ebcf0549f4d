/** Theorems about every run of a session: any actions, any saves, crashes anywhere, any number of reopens. */
module SessionRuns {
  import opened Wrappers
  import opened Sessions
  import opened SessionSafety
  import opened SessionSteps

  lemma SendActionKept(p: Policy, m: Memory, a: Action)
    requires Inv(p, m.data) && MemoryEnabled(p, m, a)
    requires a.Prepare? || a.Intend? || a.Receipt? || a.NoReceipt? || a.DoubtReceipt?
    ensures Kept(p, m.data, ApplyMemory(p, m, a).data)
  {
    hide Inv, Kept, EffectAuthorized, NodeAuthorized, AllReady, TextFor;
    var s := m.data;
    match a
    case Prepare(id) => PrepareKept(p, s, id);
    case Intend(nonce) => IntendKept(p, s, m.send.effect, nonce);
    case Receipt(seqNo) =>
      HasNonce(p, s, m.send.effect);
      MoveKept(p, s, m.send.effect, s.effects[m.send.effect].(status := Sent, seqNo := Some(seqNo)));
    case NoReceipt(rejected) =>
      var e := s.effects[m.send.effect].(status := if rejected then Failed else Ambiguous);
      MoveKept(p, s, m.send.effect, e);
      ThenQuiet(p, s, SetEffect(s, m.send.effect, e), Halt(SetEffect(s, m.send.effect, e)));
    case DoubtReceipt =>
      var e := s.effects[m.send.effect].(status := Ambiguous);
      MoveKept(p, s, m.send.effect, e);
      ThenQuiet(p, s, SetEffect(s, m.send.effect, e), Halt(SetEffect(s, m.send.effect, e)));
  }

  lemma HasNonce(p: Policy, s: Session, id: EffectId)
    requires Inv(p, s) && id in s.effects
    requires s.effects[id].status.Sending? || s.effects[id].status.Sent? || s.effects[id].status.Receiving?
    ensures s.effects[id].nonce.Some?
  {
    hide Inv, NodeFits, Progressed;
    InvEffect(p, s, id);
  }

  lemma EndSendKept(p: Policy, m: Memory, fate: SendFate)
    requires Inv(p, m.data) && MemoryEnabled(p, m, EndSend(fate))
    ensures Kept(p, m.data, ApplyMemory(p, m, EndSend(fate)).data)
  {
    hide Inv, Kept, EffectAuthorized, NodeAuthorized, AllReady, TextFor, NodeLater;
    var s, id := m.data, m.send.effect;
    Unchanged(p, s);
    match fate
    case SendSucceeded =>
      if id.kind.Result? {
        ResultSentKept(p, s, id);
      }
    case SendUnsuccessful =>
      var e := s.effects[id].(status := Failed);
      if s.effects[id].status.Prepared? {
        MoveKept(p, s, id, e);
        ThenQuiet(p, s, SetEffect(s, id, e), Halt(SetEffect(s, id, e)));
      } else {
        ThenQuiet(p, s, s, Halt(s));
      }
    case SendThrew =>
  }

  lemma Unchanged(p: Policy, s: Session)
    requires Inv(p, s)
    ensures Kept(p, s, s)
  {
    hide Inv, Kept;
    WithinLimits(p, s);
    QuietKept(p, s, s);
  }

  lemma ReceiveActionKept(p: Policy, m: Memory, a: Action)
    requires Inv(p, m.data) && MemoryEnabled(p, m, a)
    requires a.StartReceive? || a.TakeProposal? || a.TakeResult? || a.LoseReceive?
    ensures Kept(p, m.data, ApplyMemory(p, m, a).data)
  {
    hide Inv, Kept, PairAllowed, NodeAuthorized, AllReady, TextFor, NodeLater, SentTo;
    var s := m.data;
    match a
    case StartReceive(alias) => ReceiveKept(p, s, alias);
    case TakeProposal(id, _) =>
      var v := s.nodes[id.node].(compute := Accepted, runtimeTask := Some(RuntimeTaskOf(id.node)));
      var t := SetEffect(SetNode(s, id.node, v), id, s.effects[id].(status := Received));
      TakeProposalKept(p, s, id);
      ThenQuiet(p, s, t, ApplyMemory(p, m, a).data);
    case TakeResult(id, _) => TakeResultKept(p, s, id);
    case LoseReceive(ids) =>
      DoubtKept(p, s, ids);
      ThenQuiet(p, s, Doubt(s, ids), Halt(Doubt(s, ids)));
  }

  lemma NodeActionKept(p: Policy, m: Memory, a: Action)
    requires Inv(p, m.data) && MemoryEnabled(p, m, a)
    requires a.EnqueueRoot? || a.RefuseSend? || a.StartCompute? || a.FinishCompute?
    ensures Kept(p, m.data, ApplyMemory(p, m, a).data)
  {
    hide Inv, Kept, NodeAuthorized, EffectAuthorized, AllReady, NodeLater, RuntimeTaskOf, TextFor, IsMail;
    var s, t := m.data, ApplyMemory(p, m, a).data;
    match a
    case EnqueueRoot(job, ok) =>
      EnqueueKept(p, s, job);
      if !ok {
        var u := SetNode(s, Root(job), s.nodes[Root(job)].(compute := ComputeFailed));
        BlockJobIsQuiet(u, job);
        ThenQuiet(p, s, u, t);
      }
    case RefuseSend(id) =>
      RefuseKept(p, s, id);
      var u := SetNode(s, id.node, s.nodes[id.node].(delivery := NeedsOperator));
      BlockJobIsQuiet(u, s.nodes[id.node].job);
      ThenQuiet(p, s, u, t);
    case StartCompute(id) => RunKept(p, s, id, Missing);
    case FinishCompute(id, outcome) =>
      RunKept(p, s, id, outcome);
      if outcome.Succeeded? {
        ResultKept(p, s, id, outcome.result);
      } else {
        var u := SetNode(s, id, s.nodes[id].(compute := if outcome.TaskFailed? then ComputeFailed else ComputeAmbiguous));
        BlockJobIsQuiet(u, s.nodes[id].job);
        ThenQuiet(p, s, u, t);
      }
  }

  lemma GraphActionKept(p: Policy, m: Memory, a: Action)
    requires Inv(p, m.data) && MemoryEnabled(p, m, a)
    requires a.SubmitRoot? || a.Delegate? || a.RestoreTasks?
    ensures Kept(p, m.data, ApplyMemory(p, m, a).data)
  {
    hide Inv, Kept, NodeAuthorized, Distinct, DelegateEnabled, Restore, WorkloadAllowed, ScopeAllowed;
    var s := m.data;
    match a
    case SubmitRoot(job, alias, workload, authority, flow) =>
      SubmitKept(p, s, job, Job(authority, [Root(job)], JobAccepted, flow),
                 Node(job, alias, workload, None, [], 0, Planned, Local, None, None));
    case Delegate(parent, target, workload, payload, dependencies) =>
      ParentExists(p, s, parent, target, workload, dependencies);
      DelegateKept(p, s, Child(parent, target, workload, payload, dependencies),
                   ChildNode(s, parent, target, workload, dependencies));
    case RestoreTasks(fates) => RestoreKept(p, s, fates);
  }

  lemma ParentExists(p: Policy, s: Session, parent: NodeId, target: Alias, workload: Workload, dependencies: seq<NodeId>)
    requires DelegateEnabled(p, s, parent, target, workload, dependencies)
    ensures parent in s.nodes && s.nodes[parent].job in s.jobs
  {
    hide NodeAuthorized;
  }

  lemma ClosingActionKept(p: Policy, m: Memory, a: Action)
    requires Inv(p, m.data) && MemoryEnabled(p, m, a)
    requires a.ContradictIntake? || a.Block? || a.Complete? || a.Stop?
    ensures Kept(p, m.data, ApplyMemory(p, m, a).data)
  {
    hide Inv, Kept, Finished, CompleteJobs, Unsettled;
    var s, t := m.data, ApplyMemory(p, m, a).data;
    Unchanged(p, s);
    match a
    case Complete => CompleteKept(p, s, s);
    case Stop =>
      UnsettledOnly(s);
      DoubtKept(p, s, Unsettled(s));
      ThenQuiet(p, s, Doubt(s, Unsettled(s)), t);
    case Block(job) => BlockJobIsQuiet(s, job); ThenQuiet(p, s, s, t);
    case ContradictIntake(key, _) =>
      if s.intakes[key].job.Some? { BlockJobIsQuiet(s, s.intakes[key].job.value); }
      ThenQuiet(p, s, s, t);
  }

  lemma QuietActionKept(p: Policy, m: Memory, a: Action)
    requires Inv(p, m.data) && MemoryEnabled(p, m, a)
    requires a.Activate? || a.RecordIntake? || a.AcceptIntake? || a.SpendGet?
      || a.SpendInference? || a.HaltSession? || a.Pause? || a.Continue? || a.Close?
    ensures Kept(p, m.data, ApplyMemory(p, m, a).data)
  {
    hide Inv, Kept;
    WithinLimits(p, m.data);
    QuietKept(p, m.data, ApplyMemory(p, m, a).data);
  }

  lemma UnsettledOnly(s: Session)
    ensures forall e | e in Unsettled(s) && e in s.effects ::
      s.effects[e].status.Sending? || s.effects[e].status.Receiving? || s.effects[e].status.Received?
  {
  }

  lemma ActionKept(p: Policy, m: Memory, a: Action)
    requires Inv(p, m.data) && MemoryEnabled(p, m, a)
    ensures Kept(p, m.data, ApplyMemory(p, m, a).data)
  {
    hide Inv, Kept, MemoryEnabled, ApplyMemory;
    match a
    case Prepare(_) => SendActionKept(p, m, a);
    case Intend(_) => SendActionKept(p, m, a);
    case Receipt(_) => SendActionKept(p, m, a);
    case NoReceipt(_) => SendActionKept(p, m, a);
    case DoubtReceipt => SendActionKept(p, m, a);
    case EndSend(fate) => EndSendKept(p, m, fate);
    case StartReceive(_) => ReceiveActionKept(p, m, a);
    case TakeProposal(_, _) => ReceiveActionKept(p, m, a);
    case TakeResult(_, _) => ReceiveActionKept(p, m, a);
    case LoseReceive(_) => ReceiveActionKept(p, m, a);
    case EnqueueRoot(_, _) => NodeActionKept(p, m, a);
    case RefuseSend(_) => NodeActionKept(p, m, a);
    case StartCompute(_) => NodeActionKept(p, m, a);
    case FinishCompute(_, _) => NodeActionKept(p, m, a);
    case SubmitRoot(_, _, _, _, _) => GraphActionKept(p, m, a);
    case Delegate(_, _, _, _, _) => GraphActionKept(p, m, a);
    case RestoreTasks(_) => GraphActionKept(p, m, a);
    case ContradictIntake(_, _) => ClosingActionKept(p, m, a);
    case Block(_) => ClosingActionKept(p, m, a);
    case Complete => ClosingActionKept(p, m, a);
    case Stop => ClosingActionKept(p, m, a);
    case _ => QuietActionKept(p, m, a);
  }

  // ----------------------------------------------------- memory, checkpoint, network

  /** The pair and workload of an effect are allowed, by the policy and by the scope of its job. */
  ghost predicate EffectAllowed(p: Policy, s: Session, id: EffectId) {
    && id in s.effects && id.node in s.nodes && s.nodes[id.node].job in s.jobs
    && PairAllowed(p, s.effects[id].source, s.effects[id].target, s.nodes[id.node].workload,
                   s.jobs[s.nodes[id.node].job].authority)
  }

  /** The effect being sent is still in memory; between intent and transport its one post is still to come. */
  ghost predicate SendFits(posts: seq<EffectId>, m: Memory) {
    && (!m.send.Idle? ==> m.send.effect in m.data.effects)
    && (m.send.Intended? ==> m.data.effects[m.send.effect].nonce.Some? && m.send.effect !in posts)
  }

  ghost predicate PostsFit(p: Policy, s: Session, posts: seq<EffectId>) {
    forall id | id in posts :: id in Intents(s) && EffectAllowed(p, s, id)
  }

  ghost predicate WorldInv(p: Policy, w: World) {
    && Inv(p, w.disk)
    && Distinct(w.posts)
    && PostsFit(p, w.disk, w.posts)
    && (w.memory.Some? ==>
          && Kept(p, w.disk, w.memory.value.data)
          && SendFits(w.posts, w.memory.value))
  }

  /** Permissions refer to parts of a session that do not change. */
  lemma AllowedStays(p: Policy, s: Session, t: Session, id: EffectId)
    requires Later(s, t) && id in Intents(s) && EffectAllowed(p, s, id)
    ensures id in Intents(t) && EffectAllowed(p, t, id)
  {
    hide PairAllowed, Later;
    LaterNode(s, t, id.node);
    LaterEffect(s, t, id);
    LaterJob(s, t, s.nodes[id.node].job);
  }

  lemma LaterJob(s: Session, t: Session, j: JobId)
    requires Later(s, t) && j in s.jobs
    ensures j in t.jobs && JobLater(s.jobs[j], t.jobs[j])
  {
  }

  /** What each action does to the effect being sent. */
  lemma SendMoves(p: Policy, m: Memory, a: Action)
    requires MemoryEnabled(p, m, a)
    ensures var n := ApplyMemory(p, m, a);
      && (n.send.Idle? || (!m.send.Idle? && n.send.effect == m.send.effect) || (a == Prepare(n.send.effect) && n.send.effect in n.data.effects))
      && (n.send.Intended? && n.send != m.send ==>
            (a.Intend? && !m.send.Idle? && m.send.effect in m.data.effects && m.data.effects[m.send.effect].status.Prepared?
             && m.send.effect in n.data.effects && n.data.effects[m.send.effect].nonce.Some?))
  {
    hide BlockJob, Doubt, BeginReceive, CompleteJobs, Restore, NodeAuthorized, EffectAuthorized, AllReady, DelegateEnabled, ScopeAllowed;
  }

  lemma SendStillFits(p: Policy, w: World, a: Action)
    requires w.memory.Some? && SendFits(w.posts, w.memory.value) && MemoryEnabled(p, w.memory.value, a)
    requires Inv(p, w.memory.value.data)
    requires Later(w.disk, w.memory.value.data)
    requires Later(w.memory.value.data, ApplyMemory(p, w.memory.value, a).data)
    requires forall id | id in w.posts :: id in Intents(w.disk)
    ensures SendFits(w.posts, ApplyMemory(p, w.memory.value, a))
  {
    hide Inv, Later, MemoryEnabled, ApplyMemory;
    var m, n := w.memory.value, ApplyMemory(p, w.memory.value, a);
    SendMoves(p, m, a);
    if !m.send.Idle? {
      LaterEffect(m.data, n.data, m.send.effect);
      if m.data.effects[m.send.effect].status.Prepared? && m.send.effect in w.posts {
        InvEffect(p, m.data, m.send.effect);
        LaterEffect(w.disk, m.data, m.send.effect);
      }
    }
  }

  lemma DoKept(p: Policy, w: World, a: Action)
    requires WorldInv(p, w) && Enabled(p, w, Do(a))
    ensures WorldInv(p, Apply(p, w, Do(a)))
  {
    hide Inv, Later, MemoryEnabled, ApplyMemory, EffectAllowed, SendFits;
    var m := w.memory.value;
    ActionKept(p, m, a);
    SendStillFits(p, w, a);
    KeptJoins(p, w.disk, m.data, ApplyMemory(p, m, a).data);
  }

  lemma AuthorizedIsAllowed(p: Policy, s: Session, id: EffectId)
    requires id in s.effects && EffectAuthorized(p, s, id, s.effects[id])
    ensures EffectAllowed(p, s, id)
  {
    hide PairAllowed;
  }

  lemma PostKept(p: Policy, w: World, reply: Reply)
    requires WorldInv(p, w) && Enabled(p, w, Post(reply))
    ensures WorldInv(p, Apply(p, w, Post(reply)))
  {
    hide Inv, Later, EffectAuthorized, EffectAllowed, MemoryEnabled, ApplyMemory, Kept;
    AuthorizedIsAllowed(p, w.disk, w.memory.value.send.effect);
  }

  lemma KeptGives(p: Policy, s: Session, t: Session)
    requires Kept(p, s, t)
    ensures Inv(p, t) && Later(s, t)
  {
  }

  lemma PostsStillFit(p: Policy, s: Session, t: Session, posts: seq<EffectId>)
    requires Later(s, t) && PostsFit(p, s, posts)
    ensures PostsFit(p, t, posts)
  {
    hide Later, EffectAllowed, Intents;
    forall id | id in posts
      ensures id in Intents(t) && EffectAllowed(p, t, id)
    {
      AllowedStays(p, s, t, id);
    }
  }

  lemma SaveKept(p: Policy, w: World)
    requires WorldInv(p, w) && w.memory.Some?
    ensures WorldInv(p, w.(disk := w.memory.value.data)) && Later(w.disk, w.memory.value.data)
  {
    hide Inv, Later, PostsFit, Kept, SendFits, Distinct, WorldInv;
    var m := w.memory.value;
    WorldGives(p, w);
    KeptGives(p, w.disk, m.data);
    PostsStillFit(p, w.disk, m.data, w.posts);
    Unchanged(p, m.data);
    SavedWorld(p, w);
  }

  lemma WorldGives(p: Policy, w: World)
    requires WorldInv(p, w)
    ensures PostsFit(p, w.disk, w.posts)
    ensures w.memory.Some? ==> Kept(p, w.disk, w.memory.value.data)
  {
  }

  lemma SavedWorld(p: Policy, w: World)
    requires WorldInv(p, w) && w.memory.Some?
    requires Kept(p, w.memory.value.data, w.memory.value.data) && PostsFit(p, w.memory.value.data, w.posts)
    ensures WorldInv(p, w.(disk := w.memory.value.data))
  {
    hide Inv, Later, PostsFit, SendFits, Distinct;
  }

  lemma ReopenKept(p: Policy, w: World)
    requires WorldInv(p, w)
    ensures WorldInv(p, w.(memory := Some(Reopened(w.disk))))
  {
    hide Inv, Later, PostsFit, Kept, Distinct;
    WithinLimits(p, w.disk);
    QuietKept(p, w.disk, Reopened(w.disk).data);
  }

  /** Every step keeps the invariant, and the checkpoint only moves forward. */
  lemma StepKept(p: Policy, w: World, x: Step)
    requires WorldInv(p, w) && Enabled(p, w, x)
    ensures WorldInv(p, Apply(p, w, x)) && Later(w.disk, Apply(p, w, x).disk)
  {
    hide Inv, Later, MemoryEnabled, ApplyMemory, EffectAuthorized, PostsFit, Kept, SendFits, Distinct;
    DiskUnchanged(p, w);
    match x
    case Crash =>
    case Reopen => ReopenKept(p, w);
    case Save => SaveKept(p, w);
    case Post(reply) => PostKept(p, w, reply);
    case Do(a) => DoKept(p, w, a);
  }

  lemma {:induction false} WholeRunKept(p: Policy, w: World, log: seq<Step>, v: World)
    requires WorldInv(p, w) && Run(p, w, log, v)
    ensures WorldInv(p, v) && Later(w.disk, v.disk)
    decreases |log|
  {
    hide WorldInv, Later, Enabled, Apply;
    if log == [] {
      DiskUnchanged(p, w);
    } else {
      StepKept(p, w, log[0]);
      WholeRunKept(p, Apply(p, w, log[0]), log[1..], v);
      LaterTransitive(w.disk, Apply(p, w, log[0]).disk, v.disk);
    }
  }

  lemma DiskUnchanged(p: Policy, w: World)
    requires WorldInv(p, w)
    ensures Later(w.disk, w.disk)
  {
    hide Inv;
    Unchanged(p, w.disk);
  }

  // ------------------------------------------------------------------- theorems

  ghost predicate Reachable(p: Policy, w: World) {
    exists log :: Run(p, Initial, log, w)
  }

  /** The session as some process holds it in memory, or as the checkpoint holds it. */
  ghost predicate Held(w: World, s: Session) {
    s == w.disk || (w.memory.Some? && s == w.memory.value.data)
  }

  lemma InitialInv(p: Policy)
    ensures WorldInv(p, Initial)
  {
    assert Intents(EmptySession) == {};
  }

  lemma ReachableInv(p: Policy, w: World)
    requires Reachable(p, w)
    ensures WorldInv(p, w)
    ensures forall s | Held(w, s) :: Inv(p, s)
  {
    var log :| Run(p, Initial, log, w);
    InitialInv(p);
    WholeRunKept(p, Initial, log, w);
    hide Inv, Run;
  }

  lemma {:induction false} DistinctFits<T>(s: seq<T>, all: set<T>)
    requires Distinct(s) && forall x | x in s :: x in all
    ensures |s| <= |all|
    decreases |s|
  {
    if s != [] {
      var last, rest := s[|s| - 1], s[..|s| - 1];
      DistinctFits(rest, all - {last});
    }
  }

  /** No effect is posted twice, whatever crashes and reopens; and the posts stay within the budget. */
  lemma PostedAtMostOnce(p: Policy, w: World)
    requires Reachable(p, w)
    ensures forall i, j | 0 <= i < j < |w.posts| :: w.posts[i] != w.posts[j]
    ensures |w.posts| <= w.disk.budgets.outbound <= p.limits.outbound
  {
    ReachableInv(p, w);
    InvSpent(p, w.disk);
    hide Inv, Structured;
    DistinctFits(w.posts, Intents(w.disk));
  }

  /** What was posted is on disk with a recorded intent, went where policy and scope allow, and said what it should. */
  lemma PostsAreRecordedAndAllowed(p: Policy, w: World, id: EffectId)
    requires Reachable(p, w) && id in w.posts
    ensures id in w.disk.effects && w.disk.effects[id].nonce.Some? && !w.disk.effects[id].status.Prepared?
    ensures EffectAllowed(p, w.disk, id)
    ensures w.disk.effects[id].text == TextFor(w.disk, id)
    ensures id.kind.Result? ==> w.disk.nodes[id.node].compute.ResultReady?
    ensures AllReady(w.disk, w.disk.nodes[id.node].dependencies)
  {
    ReachableInv(p, w);
    InvEffect(p, w.disk, id);
    HasParent(p, w.disk, id.node);
    hide Inv, NodeFits, EffectAllowed, RuntimeTaskOf, AllReady;
    assert id == EffectId(id.node, id.kind);
  }

  /** The checkpoint never goes back: statuses, results, runtime tasks, task lists and budgets only move forward. */
  lemma {:induction false} CheckpointOnlyMovesForward(p: Policy, w: World, log: seq<Step>, v: World)
    requires Reachable(p, w) && Run(p, w, log, v)
    ensures Later(w.disk, v.disk)
    ensures v.memory.Some? ==> Later(w.disk, v.memory.value.data)
  {
    ReachableInv(p, w);
    WholeRunKept(p, w, log, v);
    hide Inv, Run, Later;
    if v.memory.Some? {
      KeptGives(p, v.disk, v.memory.value.data);
      LaterTransitive(w.disk, v.disk, v.memory.value.data);
    }
  }

  /** An effect that left `Prepared` on disk is never `Prepared` again, in memory or on disk. */
  lemma {:induction false} NeverPreparedAgain(p: Policy, w: World, log: seq<Step>, v: World, id: EffectId, s: Session)
    requires Reachable(p, w) && Run(p, w, log, v) && Held(v, s)
    requires id in w.disk.effects && !w.disk.effects[id].status.Prepared?
    ensures id in s.effects && !s.effects[id].status.Prepared?
    ensures w.disk.effects[id].status.Received? ==> s.effects[id].status.Received?
  {
    CheckpointOnlyMovesForward(p, w, log, v);
    hide Later;
    LaterEffect(w.disk, s, id);
  }

  /** The effect is known to disk and memory, and is not the one being sent. */
  ghost predicate Behind(w: World, id: EffectId) {
    && id in w.disk.effects
    && (w.memory.Some? ==>
          && id in w.memory.value.data.effects
          && (w.memory.value.send.Idle? || w.memory.value.send.effect != id))
  }

  lemma StepStaysBehind(p: Policy, w: World, x: Step, id: EffectId)
    requires WorldInv(p, w) && Enabled(p, w, x) && Behind(w, id)
    ensures Behind(Apply(p, w, x), id)
    ensures id in Apply(p, w, x).posts <==> id in w.posts
  {
    hide Inv, Later, MemoryEnabled, ApplyMemory, EffectAllowed, SendFits, EffectAuthorized;
    if x.Do? {
      var m := w.memory.value;
      KeptGives(p, w.disk, m.data);
      ActionKept(p, m, x.action);
      LaterEffect(m.data, ApplyMemory(p, m, x.action).data, id);
      SendMoves(p, m, x.action);
      if x.action.Prepare? {
        PrepareIsNew(p, m, x.action);
      }
    }
  }

  lemma PrepareIsNew(p: Policy, m: Memory, a: Action)
    requires MemoryEnabled(p, m, a) && a.Prepare?
    ensures a.effect !in m.data.effects
  {
    hide Sendable, EffectAuthorized;
  }

  lemma {:induction false} RunStaysBehind(p: Policy, w: World, log: seq<Step>, v: World, id: EffectId)
    requires WorldInv(p, w) && Run(p, w, log, v) && Behind(w, id)
    ensures id in v.posts <==> id in w.posts
    decreases |log|
  {
    hide WorldInv, Behind, Enabled, Apply;
    if log != [] {
      StepStaysBehind(p, w, log[0], id);
      StepKept(p, w, log[0]);
      RunStaysBehind(p, Apply(p, w, log[0]), log[1..], v, id);
    }
  }

  /** Once a process has died, nothing it left on disk is ever handed to the transport, again or for the first time. */
  lemma {:induction false} NothingIsSentForADeadProcess(p: Policy, w: World, log: seq<Step>, v: World, id: EffectId)
    requires Reachable(p, w) && w.memory.None? && id in w.disk.effects && Run(p, w, log, v)
    ensures id in v.posts <==> id in w.posts
  {
    ReachableInv(p, w);
    RunStaysBehind(p, w, log, v, id);
  }

  ghost predicate Started(v: Node) {
    v.compute.Accepted? || v.compute.Running? || v.compute.ResultReady?
  }

  /** Work starts only on finished dependencies, and runs as one fixed task. */
  lemma {:induction false} DependenciesComeFirst(p: Policy, w: World, s: Session, id: NodeId)
    requires Reachable(p, w) && Held(w, s) && id in s.nodes && Started(s.nodes[id])
    ensures AllReady(s, s.nodes[id].dependencies)
    ensures s.nodes[id].runtimeTask == Some(RuntimeTaskOf(id))
  {
    ReachableInv(p, w);
    InvNode(p, s, id);
    hide Inv, AllReady, RuntimeTaskOf, WorkloadAllowed, DelegationAllowed;
    if id.Root? {
      NoDependenciesAreReady(s);
    }
  }

  lemma NoDependenciesAreReady(s: Session)
    ensures AllReady(s, [])
  {
  }

  /** And stays so: later checkpoints and memories show the same finished dependencies, evidence and task. */
  lemma {:induction false} CausalityIsStable(p: Policy, w: World, log: seq<Step>, v: World, s: Session, id: NodeId)
    requires Reachable(p, w) && Run(p, w, log, v) && Held(v, s)
    requires id in w.disk.nodes && Started(w.disk.nodes[id])
    ensures id in s.nodes && s.nodes[id].dependencies == w.disk.nodes[id].dependencies
    ensures AllReady(s, s.nodes[id].dependencies)
    ensures Evidence(s, s.nodes[id].dependencies) == Evidence(w.disk, s.nodes[id].dependencies)
    ensures s.nodes[id].runtimeTask == w.disk.nodes[id].runtimeTask == Some(RuntimeTaskOf(id))
  {
    ReachableInv(p, w);
    DependenciesComeFirst(p, w, w.disk, id);
    CheckpointOnlyMovesForward(p, w, log, v);
    hide Inv, Later, AllReady, Evidence, RuntimeTaskOf;
    LaterNode(w.disk, s, id);
    DependenciesStay(p, w.disk, s, id);
  }

  /** Every node is inside the authority its job was given; children only narrow it. */
  ghost predicate InsideAuthority(p: Policy, s: Session, id: NodeId) {
    && id in s.nodes && s.nodes[id].job in s.jobs
    && var v, job := s.nodes[id], s.jobs[s.nodes[id].job];
    && WorkloadAllowed(p, v.alias, v.workload)
    && (v.parent.Some? ==>
          && v.parent.value in s.nodes && s.nodes[v.parent.value].job == v.job
          && v.depth == s.nodes[v.parent.value].depth + 1 <= p.limits.depth
          && s.nodes[v.parent.value].alias in p.delegators
          && PairAllowed(p, s.nodes[v.parent.value].alias, v.alias, v.workload, job.authority))
    && (v.parent.None? ==> v.depth == 0)
    && (job.authority.External? ==>
          && v.workload in job.authority.scope.workloads
          && |job.tasks| <= job.authority.scope.maxTasks <= p.limits.tasks)
  }

  lemma AuthorityIsNeverWidened(p: Policy, w: World, s: Session, id: NodeId)
    requires Reachable(p, w) && Held(w, s) && id in s.nodes
    ensures InsideAuthority(p, s, id)
  {
    ReachableInv(p, w);
    InvSpent(p, s);
    StructuredNode(p, s, id);
    hide Inv, Structured, Spent, WorkloadAllowed, PairAllowed, Distinct;
  }

  /** One task of budget per node, and no budget above its limit. */
  lemma BudgetsAreExact(p: Policy, w: World, s: Session)
    requires Reachable(p, w) && Held(w, s)
    ensures s.budgets.tasks == |s.nodes| <= p.limits.tasks
    ensures s.budgets.outbound == |Intents(s)| <= p.limits.outbound
    ensures s.budgets.gets <= p.limits.gets && s.budgets.inference <= p.limits.inference
  {
    ReachableInv(p, w);
    InvSpent(p, s);
    hide Inv, Structured;
  }

  lemma RestoreSettlesNode(s: Session, fates: map<NodeId, Fate>, id: NodeId)
    requires id in s.nodes && (id.Root? <==> s.nodes[id].parent.None?)
    ensures var v := RestoredNode(s, id, FateOf(fates, id));
      && !v.compute.Running? && !(id.Root? && v.compute.Planned?)
      && (Lost(s, id) ==> v.delivery.NeedsOperator?)
  {
    hide Lost;
  }

  /** After a reopen nothing is half sent, half received or half run, and what was lost is never scheduled again. */
  lemma RestoreSettlesEverything(p: Policy, w: World, fates: map<NodeId, Fate>, e: EffectId, id: NodeId)
    requires Reachable(p, w) && Enabled(p, w, Do(RestoreTasks(fates)))
    ensures var s, t := w.memory.value.data, Restore(w.memory.value.data, fates);
      && Apply(p, w, Do(RestoreTasks(fates))).memory.value.data == t
      && (e in s.effects ==> t.effects[e].status.Received? || t.effects[e].status.Failed? || t.effects[e].status.Ambiguous?)
      && (e in s.effects ==> (s.effects[e].status.Received? <==> t.effects[e].status.Received?))
      && (id in s.nodes ==> !t.nodes[id].compute.Running? && !(id.Root? && t.nodes[id].compute.Planned?))
      && (id in s.nodes && Lost(s, id) ==> forall kind :: !Sendable(t, EffectId(id, kind)))
  {
    hide Inv, Run, RestoreBlocks, AllReady, Lost, Finished, RestoredNode;
    ReachableInv(p, w);
    var s := w.memory.value.data;
    if id in s.nodes {
      HasParent(p, s, id);
      RestoreSettlesNode(s, fates, id);
    }
  }
}
