/**
 A peer session as its supervisor keeps it: jobs, task nodes, outbound effects and budgets, and every
 step that changes them. Memory and the checkpoint file are separate; a crash keeps only the file.
 */
module Sessions {
  import opened Wrappers

  datatype Alias = Alice | Bob | Charlie | Dave | Eve
  type Workload = string
  type Hash = string
  type Nonce = nat

  datatype JobId = JobId(proposal: string, requester: string)

  /** Identifiers are hashes of exactly these parts, so they are modelled by the parts. */
  datatype NodeId =
    | Root(job: JobId)
    | Child(parent: NodeId, target: Alias, workload: Workload, payload: Hash, dependencies: seq<NodeId>)

  datatype Kind = Proposal | Result
  datatype EffectId = EffectId(node: NodeId, kind: Kind)

  /** The task a node runs as in its peer's own runtime. */
  datatype RuntimeTask = OwnTask(root: NodeId) | DelegatedTask(parent: RuntimeTask, node: NodeId)

  datatype Compute = Planned | Accepted | Running | ResultReady | ComputeFailed | ComputeAmbiguous
  datatype Delivery = Local | Undelivered | ResultSent | Delivered | NeedsOperator

  datatype Node = Node(
    job: JobId, alias: Alias, workload: Workload, parent: Option<NodeId>, dependencies: seq<NodeId>, depth: nat,
    compute: Compute, delivery: Delivery, runtimeTask: Option<RuntimeTask>, evidence: Option<Hash>)

  /** What an operator allowed one external job to do. */
  datatype Scope = Scope(workloads: set<Workload>, pairs: set<(Alias, Alias)>, maxTasks: int)
  datatype Authority = Internal | External(scope: Scope)

  datatype JobStatus = JobAccepted | JobRunning | Completed | Blocked
  datatype Job = Job(authority: Authority, tasks: seq<NodeId>, status: JobStatus, flow: Option<seq<Alias>>)

  datatype Text =
    | ProposalText(node: NodeId, evidence: seq<Option<Hash>>)
    | ResultText(node: NodeId, result: Option<Hash>)

  datatype Status = Prepared | Sending | Sent | Receiving | Received | Failed | Ambiguous
  datatype Effect = Effect(
    source: Alias, target: Alias, text: Text, status: Status, nonce: Option<Nonce>, seqNo: Option<nat>)

  /** Records of outside proposals, and of child proposals that this session's own peers accepted. */
  datatype IntakeKey = FromOutside(hash: Hash) | OfEffect(effect: EffectId)
  datatype IntakeStatus = IntakeAccepted | IntakeWaiting | IntakeRejected
  datatype Intake = Intake(status: IntakeStatus, workload: Workload, hash: Hash, job: Option<JobId>)

  const RejectedIntake := Intake(IntakeRejected, "", "", None)

  datatype Lifecycle = Starting | Active | Paused | Stopping | Stopped | Halted
  datatype Budgets = Budgets(tasks: nat, outbound: nat, gets: nat, inference: nat)

  datatype Session = Session(
    lifecycle: Lifecycle,
    budgets: Budgets,
    jobs: map<JobId, Job>,
    nodes: map<NodeId, Node>,
    effects: map<EffectId, Effect>,
    intakes: map<IntakeKey, Intake>)

  datatype Limits = Limits(tasks: nat, outbound: nat, gets: nat, inference: nat, depth: nat)

  /** The reviewed policy; it does not change while a session lives. */
  datatype Policy = Policy(
    offline: bool,
    limits: Limits,
    delegators: set<Alias>,
    workloads: set<Workload>,
    capable: set<(Alias, Workload)>,
    pairs: map<(Alias, Alias), set<Workload>>)

  // ------------------------------------------------------------------ authority

  predicate WorkloadAllowed(p: Policy, alias: Alias, workload: Workload) {
    workload in p.workloads && (alias, workload) in p.capable
  }

  predicate PairAllowed(p: Policy, source: Alias, target: Alias, workload: Workload, authority: Authority) {
    && (source, target) in p.pairs && workload in p.pairs[(source, target)]
    && (authority.External? ==>
          workload in authority.scope.workloads && (source, target) in authority.scope.pairs)
  }

  predicate DelegationAllowed(p: Policy, source: Alias, target: Alias, workload: Workload, depth: nat, authority: Authority) {
    && source in p.delegators && depth <= p.limits.depth
    && WorkloadAllowed(p, target, workload)
    && PairAllowed(p, source, target, workload, authority)
  }

  predicate ProposalActive(s: Session, job: JobId) {
    exists i | i in s.intakes :: s.intakes[i].status == IntakeAccepted && s.intakes[i].job == Some(job)
  }

  predicate NodeAuthorized(p: Policy, s: Session, node: Node) {
    && node.job in s.jobs
    && WorkloadAllowed(p, node.alias, node.workload)
    && var job := s.jobs[node.job];
    && (job.authority.External? ==>
          && node.workload in job.authority.scope.workloads
          && |job.tasks| <= job.authority.scope.maxTasks
          && ProposalActive(s, node.job))
    && (node.parent.Some? ==>
          && node.parent.value in s.nodes
          && DelegationAllowed(p, s.nodes[node.parent.value].alias, node.alias, node.workload, node.depth, job.authority))
  }

  predicate EffectAuthorized(p: Policy, s: Session, id: EffectId, e: Effect) {
    && id.node in s.nodes
    && var node := s.nodes[id.node];
    && NodeAuthorized(p, s, node)
    && PairAllowed(p, e.source, e.target, node.workload, s.jobs[node.job].authority)
  }

  /** An operator's scope never exceeds the session policy and covers the proposed workload. */
  predicate ScopeAllowed(p: Policy, scope: Scope, workload: Workload) {
    && 1 <= scope.maxTasks <= p.limits.tasks
    && workload in scope.workloads
    && scope.workloads <= p.workloads && scope.pairs <= p.pairs.Keys
  }

  // --------------------------------------------------------------------- nodes

  predicate Ready(s: Session, id: NodeId) {
    id in s.nodes && s.nodes[id].compute.ResultReady? && (s.nodes[id].delivery.Local? || s.nodes[id].delivery.Delivered?)
  }

  predicate AllReady(s: Session, ids: seq<NodeId>) {
    forall d | d in ids :: Ready(s, d)
  }

  predicate Distinct<T(==)>(ids: seq<T>) {
    forall i, j | 0 <= i < j < |ids| :: ids[i] != ids[j]
  }

  function RuntimeTaskOf(id: NodeId): RuntimeTask {
    match id
    case Root(_) => OwnTask(id)
    case Child(parent, _, _, _, _) => DelegatedTask(RuntimeTaskOf(parent), id)
  }

  function EvidenceOf(s: Session, id: NodeId): Option<Hash> {
    if id in s.nodes then s.nodes[id].evidence else None
  }

  function Evidence(s: Session, ids: seq<NodeId>): seq<Option<Hash>> {
    seq(|ids|, i requires 0 <= i < |ids| => EvidenceOf(s, ids[i]))
  }

  function TextFor(s: Session, id: EffectId): Text
    requires id.node in s.nodes
  {
    match id.kind
    case Proposal => ProposalText(id.node, Evidence(s, s.nodes[id.node].dependencies))
    case Result => ResultText(id.node, s.nodes[id.node].evidence)
  }

  function NewEffect(s: Session, id: EffectId): Effect
    requires id.node in s.nodes && s.nodes[id.node].parent.Some? && s.nodes[id.node].parent.value in s.nodes
  {
    var parent, own := s.nodes[s.nodes[id.node].parent.value].alias, s.nodes[id.node].alias;
    Effect(if id.kind.Proposal? then parent else own, if id.kind.Proposal? then own else parent,
           TextFor(s, id), Prepared, None, None)
  }

  /** What the scheduler sends next for a node, if anything. */
  predicate Sendable(s: Session, id: EffectId) {
    && id.node in s.nodes
    && var node := s.nodes[id.node];
    && node.parent.Some? && node.parent.value in s.nodes
    && !node.delivery.NeedsOperator?
    && node.job in s.jobs && !s.jobs[node.job].status.Blocked?
    && match id.kind
       case Proposal => node.compute.Planned? && AllReady(s, node.dependencies)
       case Result => node.compute.ResultReady? && node.delivery.Undelivered?
  }

  predicate Runnable(s: Session, id: NodeId) {
    && id in s.nodes
    && var node := s.nodes[id];
    && node.compute.Accepted? && !node.delivery.NeedsOperator?
    && node.job in s.jobs && !s.jobs[node.job].status.Blocked?
  }

  predicate Finished(s: Session, job: Job) {
    && !job.status.Blocked?
    && (job.flow.Some? ==> |job.tasks| == |job.flow.value|)
    && AllReady(s, job.tasks)
  }

  // ------------------------------------------------------------- record updates

  function SetNode(s: Session, id: NodeId, node: Node): Session {
    s.(nodes := s.nodes[id := node])
  }

  function SetEffect(s: Session, id: EffectId, e: Effect): Session {
    s.(effects := s.effects[id := e])
  }

  function BlockJob(s: Session, job: JobId): Session {
    if job in s.jobs then s.(jobs := s.jobs[job := s.jobs[job].(status := Blocked)]) else s
  }

  function Halt(s: Session): Session {
    s.(lifecycle := Halted)
  }

  /** Every effect in `ids` that was not received becomes ambiguous. */
  function Doubt(s: Session, ids: set<EffectId>): Session {
    s.(effects := map e | e in s.effects ::
         if e in ids && !s.effects[e].status.Received? then s.effects[e].(status := Ambiguous) else s.effects[e])
  }

  function SentTo(s: Session, alias: Alias): set<EffectId> {
    set e | e in s.effects && s.effects[e].target == alias && s.effects[e].status.Sent?
  }

  function Unsettled(s: Session): set<EffectId> {
    set e | e in s.effects && (s.effects[e].status.Sending? || s.effects[e].status.Receiving?)
  }

  function BeginReceive(s: Session, alias: Alias): Session {
    s.(effects := map e | e in s.effects ::
         if e in SentTo(s, alias) then s.effects[e].(status := Receiving) else s.effects[e])
  }

  function CompleteJobs(s: Session): Session {
    s.(jobs := map j | j in s.jobs :: if Finished(s, s.jobs[j]) then s.jobs[j].(status := Completed) else s.jobs[j])
  }

  // -------------------------------------------------------------- offline reopen

  /** What a peer's own runtime says about a node's task when an offline session is reopened. */
  datatype Fate = Missing | Untouched | Interrupted | TaskFailed | Succeeded(result: Hash)

  function FateOf(fates: map<NodeId, Fate>, id: NodeId): Fate {
    if id in fates then fates[id] else Missing
  }

  predicate Unreceived(s: Session, id: EffectId) {
    id in s.effects && !s.effects[id].status.Received?
  }

  predicate Lost(s: Session, id: NodeId) {
    Unreceived(s, EffectId(id, Proposal)) || Unreceived(s, EffectId(id, Result))
  }

  function RestoredEffect(e: Effect): Effect {
    if e.status.Received? || e.status.Failed? then e else e.(status := Ambiguous)
  }

  function RestoredCompute(node: Node, fate: Fate): Compute {
    if node.compute.Planned? && node.parent.None? then ComputeAmbiguous
    else if !node.compute.Accepted? && !node.compute.Running? then node.compute
    else match fate
      case Succeeded(_) => ResultReady
      case TaskFailed => ComputeFailed
      case Untouched => if node.compute.Running? then ComputeAmbiguous else Accepted
      case _ => ComputeAmbiguous
  }

  function RestoredNode(s: Session, id: NodeId, fate: Fate): Node
    requires id in s.nodes
  {
    var node := s.nodes[id];
    var compute := RestoredCompute(node, fate);
    node.(delivery := if Lost(s, id) then NeedsOperator else node.delivery,
          compute := compute,
          evidence := if compute != node.compute && compute.ResultReady? then Some(fate.result) else node.evidence)
  }

  /** A computation that a reopen finds stopped short of a result. */
  predicate StoppedShort(node: Node, fate: Fate) {
    || (node.compute.Planned? && node.parent.None?)
    || ((node.compute.Accepted? || node.compute.Running?)
        && (RestoredCompute(node, fate).ComputeFailed? || RestoredCompute(node, fate).ComputeAmbiguous?))
  }

  /** Lost effects, and computations that stopped short of a result, leave their job to the operator. */
  predicate RestoreBlocks(s: Session, job: JobId, fates: map<NodeId, Fate>) {
    exists id | id in s.nodes ::
      s.nodes[id].job == job && (Lost(s, id) || StoppedShort(s.nodes[id], FateOf(fates, id)))
  }

  function RestoredJob(s: Session, job: JobId, fates: map<NodeId, Fate>): Job
    requires job in s.jobs
  {
    if RestoreBlocks(s, job, fates) then s.jobs[job].(status := Blocked) else s.jobs[job]
  }

  /** The restored records, before finished jobs are marked. */
  function RestoredRecords(s: Session, fates: map<NodeId, Fate>): Session {
    s.(effects := map e | e in s.effects :: RestoredEffect(s.effects[e]),
       nodes := map id | id in s.nodes :: RestoredNode(s, id, FateOf(fates, id)),
       jobs := map j | j in s.jobs :: RestoredJob(s, j, fates))
  }

  function Restore(s: Session, fates: map<NodeId, Fate>): Session {
    CompleteJobs(RestoredRecords(s, fates))
  }

  // ------------------------------------------------------------------ the machine

  /** What comes of a post: a receipt bound to the message, a refusal, or neither. */
  datatype Reply = Posted(seqNo: nat) | RejectedPost | NoReply

  /** A verified peer message as its reader got it. */
  datatype Mail = Mail(reader: Alias, source: Alias, text: Text, seqNo: nat, nonce: Nonce)

  /** How far the one outbound effect being sent has come in this process. */
  datatype Send =
    | Idle
    | Preparing(effect: EffectId)
    | Intended(effect: EffectId)    // sending intent recorded in memory
    | InFlight(effect: EffectId, reply: Reply)  // handed to the transport, which answers so
    | Landed(effect: EffectId)      // receipt bound to the effect

  datatype Memory = Memory(data: Session, lost: set<Alias>, send: Send, restored: bool)

  /**
   `posts` is every effect ever handed to the transport, in order, whatever process did it; `answers` is what came
   of each, and `taken` the message that each received effect was read from.
   */
  datatype World = World(
    memory: Option<Memory>, disk: Session, posts: seq<EffectId>, answers: map<EffectId, Reply>, taken: map<EffectId, Mail>)

  /** Everything that touches the checkpoint or the network, and everything done in memory between. */
  datatype Step = Crash | Reopen | Save | Post(reply: Reply) | Do(action: Action)

  datatype Action =
    | RestoreTasks(fates: map<NodeId, Fate>)
    | Activate
    | SubmitRoot(job: JobId, alias: Alias, workload: Workload, authority: Authority, flow: Option<seq<Alias>>)
    | EnqueueRoot(job: JobId, ok: bool)
    | RecordIntake(key: IntakeKey, intake: Intake)
    | ContradictIntake(key: IntakeKey, record: IntakeKey)
    | AcceptIntake(key: IntakeKey, job: JobId)
    | Delegate(parent: NodeId, target: Alias, workload: Workload, payload: Hash, dependencies: seq<NodeId>)
    | Block(job: JobId)
    | RefuseSend(effect: EffectId)
    | Prepare(effect: EffectId)
    | Intend(nonce: Nonce)
    | Receipt(seqNo: nat)
    | NoReceipt(rejected: bool)
    | DoubtReceipt
    | EndSend(fate: SendFate)
    | StartReceive(alias: Alias)
    | TakeProposal(effect: EffectId, mail: Mail)
    | TakeResult(effect: EffectId, mail: Mail)
    | LoseReceive(effects: set<EffectId>)
    | StartCompute(node: NodeId)
    | FinishCompute(node: NodeId, outcome: Fate)
    | SpendGet
    | SpendInference
    | Complete
    | HaltSession
    | Pause
    | Continue
    | Stop
    | Close

  /** The runtime finished the send task, finished it without success, or an exception left before that. */
  datatype SendFate = SendSucceeded | SendUnsuccessful | SendThrew

  function ChildNode(s: Session, parent: NodeId, target: Alias, workload: Workload, dependencies: seq<NodeId>): Node
    requires parent in s.nodes
  {
    Node(s.nodes[parent].job, target, workload, Some(parent), dependencies, s.nodes[parent].depth + 1,
         Planned, Undelivered, None, None)
  }

  function Delegated(s: Session, id: NodeId, v: Node): Session
    requires v.job in s.jobs
  {
    s.(nodes := s.nodes[id := v],
       jobs := s.jobs[v.job := s.jobs[v.job].(tasks := s.jobs[v.job].tasks + [id], status := JobRunning)],
       budgets := s.budgets.(tasks := s.budgets.tasks + 1))
  }

  predicate DelegateEnabled(p: Policy, s: Session, parent: NodeId, target: Alias, workload: Workload, dependencies: seq<NodeId>) {
    && s.budgets.tasks < p.limits.tasks && s.budgets.outbound < p.limits.outbound && s.budgets.inference < p.limits.inference
    && parent in s.nodes && s.nodes[parent].alias != target && parent in dependencies
    && (forall d | d in dependencies :: d in s.nodes && s.nodes[d].job == s.nodes[parent].job)
    && Distinct(dependencies)
    && s.nodes[parent].job in s.jobs
    && var job := s.jobs[s.nodes[parent].job];
    && (job.authority.External? ==> |job.tasks| < job.authority.scope.maxTasks)
    && NodeAuthorized(p, s, ChildNode(s, parent, target, workload, dependencies))
  }

  /** The message is this effect's own: same peers, text, sequence number and nonce. */
  predicate IsMail(e: Effect, mail: Mail) {
    e.target == mail.reader && e.source == mail.source && e.text == mail.text && e.seqNo == Some(mail.seqNo) && e.nonce == Some(mail.nonce)
  }

  predicate MemoryEnabled(p: Policy, m: Memory, a: Action) {
    var s := m.data;
    match a
    case RestoreTasks(_) => s.lifecycle.Starting? && !m.restored
    case Activate => s.lifecycle.Starting? && m.restored
    case SubmitRoot(job, alias, workload, authority, _) =>
      && s.lifecycle.Active? && s.budgets.tasks < p.limits.tasks && job !in s.jobs
      && WorkloadAllowed(p, alias, workload)
      && (authority.External? ==> ScopeAllowed(p, authority.scope, workload))
    case EnqueueRoot(job, _) => Root(job) in s.nodes && s.nodes[Root(job)].compute.Planned?
    case RecordIntake(key, intake) =>
      intake.job.None? && (intake.status.IntakeRejected? || (intake.status.IntakeWaiting? && key !in s.intakes))
    case ContradictIntake(key, _) => key in s.intakes
    case AcceptIntake(key, job) => key in s.intakes && job in s.jobs && s.jobs[job].authority.External?
    case Delegate(parent, target, workload, payload, dependencies) =>
      && s.lifecycle.Active? && Child(parent, target, workload, payload, dependencies) !in s.nodes
      && DelegateEnabled(p, s, parent, target, workload, dependencies)
    case Block(job) => job in s.jobs
    case RefuseSend(id) => Sendable(s, id) && NewEffect(s, id).target in m.lost
    case Prepare(id) =>
      && s.lifecycle.Active? && m.send.Idle? && Sendable(s, id) && id !in s.effects
      && NewEffect(s, id).target !in m.lost
      && s.budgets.outbound < p.limits.outbound
      && EffectAuthorized(p, s, id, NewEffect(s, id))
    case Intend(_) =>
      && s.lifecycle.Active? && m.send.Preparing? && m.send.effect in s.effects
      && s.effects[m.send.effect].status.Prepared?
      && s.budgets.outbound < p.limits.outbound
      && EffectAuthorized(p, s, m.send.effect, s.effects[m.send.effect])
    case Receipt(n) =>
      m.send.InFlight? && m.send.reply == Posted(n) && m.send.effect in s.effects && s.effects[m.send.effect].status.Sending?
    case NoReceipt(rejected) =>
      && (if rejected then m.send.InFlight? && m.send.reply.RejectedPost?
          else m.send.Intended? || (m.send.InFlight? && m.send.reply.NoReply?))
      && m.send.effect in s.effects && s.effects[m.send.effect].status.Sending?
    case DoubtReceipt => m.send.Landed? && m.send.effect in s.effects && s.effects[m.send.effect].status.Sent?
    case EndSend(fate) => !m.send.Idle? && m.send.effect in s.effects && m.send.effect.node in s.nodes &&
      (fate.SendSucceeded? ==> m.send.Landed? && s.effects[m.send.effect].status.Sent?)
    case StartReceive(_) => s.lifecycle.Active? && m.send.Idle?
    case TakeProposal(id, mail) =>
      && id in s.effects && IsMail(s.effects[id], mail) && id.kind.Proposal? && s.effects[id].status.Receiving?
      && EffectAuthorized(p, s, id, s.effects[id]) && s.nodes[id.node].compute.Planned?
      && s.effects[id].text == TextFor(s, id)
    case TakeResult(id, mail) =>
      && id in s.effects && IsMail(s.effects[id], mail) && id.kind.Result? && s.effects[id].status.Receiving?
      && EffectAuthorized(p, s, id, s.effects[id])
      && s.effects[id].text == TextFor(s, id)
    case LoseReceive(ids) =>
      forall e | e in ids :: e in s.effects && (s.effects[e].status.Receiving? || s.effects[e].status.Received?)
    case StartCompute(id) =>
      && s.lifecycle.Active? && s.budgets.inference < p.limits.inference && Runnable(s, id)
      && NodeAuthorized(p, s, s.nodes[id])
    case FinishCompute(id, _) => id in s.nodes && s.nodes[id].compute.Running?
    case SpendGet => s.lifecycle.Active? && s.budgets.gets < p.limits.gets
    case SpendInference => s.lifecycle.Active? && s.budgets.inference < p.limits.inference
    case Complete => true
    case HaltSession => true
    case Pause => s.lifecycle.Active?
    case Continue => s.lifecycle.Paused?
    case Stop => true
    case Close => s.lifecycle.Stopping?
  }

  function ApplyMemory(p: Policy, m: Memory, a: Action): Memory
    requires MemoryEnabled(p, m, a)
  {
    var s := m.data;
    match a
    case RestoreTasks(fates) => m.(data := Restore(s, fates), restored := true)
    case Activate => m.(data := s.(lifecycle := Active))
    case SubmitRoot(job, alias, workload, authority, flow) =>
      var node := Node(job, alias, workload, None, [], 0, Planned, Local, None, None);
      m.(data := s.(jobs := s.jobs[job := Job(authority, [Root(job)], JobAccepted, flow)],
                    nodes := s.nodes[Root(job) := node],
                    budgets := s.budgets.(tasks := s.budgets.tasks + 1)))
    case EnqueueRoot(job, ok) =>
      var node := s.nodes[Root(job)];
      m.(data := if ok then SetNode(s, Root(job), node.(compute := Accepted, runtimeTask := Some(RuntimeTaskOf(Root(job)))))
                 else BlockJob(SetNode(s, Root(job), node.(compute := ComputeFailed)), job))
    case RecordIntake(key, intake) => m.(data := s.(intakes := s.intakes[key := intake]))
    case ContradictIntake(key, record) =>
      var t := s.(intakes := s.intakes[key := s.intakes[key].(status := IntakeRejected)][record := RejectedIntake]);
      m.(data := if s.intakes[key].job.Some? then BlockJob(t, s.intakes[key].job.value) else t)
    case AcceptIntake(key, job) =>
      m.(data := s.(intakes := s.intakes[key := s.intakes[key].(status := IntakeAccepted, job := Some(job))]))
    case Delegate(parent, target, workload, payload, dependencies) =>
      var id := Child(parent, target, workload, payload, dependencies);
      m.(data := Delegated(s, id, ChildNode(s, parent, target, workload, dependencies)))
    case Block(job) => m.(data := BlockJob(s, job))
    case RefuseSend(id) =>
      var node := s.nodes[id.node];
      m.(data := BlockJob(SetNode(s, id.node, node.(delivery := NeedsOperator)), node.job))
    case Prepare(id) => m.(data := SetEffect(s, id, NewEffect(s, id)), send := Preparing(id))
    case Intend(nonce) =>
      var id := m.send.effect;
      var t := SetEffect(s, id, s.effects[id].(status := Sending, nonce := Some(nonce)));
      m.(data := t.(budgets := s.budgets.(outbound := s.budgets.outbound + 1)), send := Intended(id))
    case Receipt(seqNo) =>
      var id := m.send.effect;
      m.(data := SetEffect(s, id, s.effects[id].(status := Sent, seqNo := Some(seqNo))), send := Landed(id))
    case NoReceipt(rejected) =>
      var id := m.send.effect;
      m.(data := Halt(SetEffect(s, id, s.effects[id].(status := if rejected then Failed else Ambiguous))), send := Preparing(id))
    case DoubtReceipt =>
      var id := m.send.effect;
      m.(data := Halt(SetEffect(s, id, s.effects[id].(status := Ambiguous))), send := Preparing(id))
    case EndSend(fate) =>
      var id := m.send.effect;
      m.(send := Idle, data :=
        match fate
        case SendSucceeded =>
          if id.kind.Result? then SetNode(s, id.node, s.nodes[id.node].(delivery := ResultSent)) else s
        case SendUnsuccessful =>
          Halt(if s.effects[id].status.Prepared? then SetEffect(s, id, s.effects[id].(status := Failed)) else s)
        case SendThrew => s)
    case StartReceive(alias) => m.(data := BeginReceive(s, alias))
    case TakeProposal(id, _) =>
      var node := s.nodes[id.node].(compute := Accepted, runtimeTask := Some(RuntimeTaskOf(id.node)));
      var t := SetEffect(SetNode(s, id.node, node), id, s.effects[id].(status := Received));
      var intake := Intake(IntakeAccepted, node.workload, "", Some(node.job));
      m.(data := t.(intakes := s.intakes[OfEffect(id) := intake]))
    case TakeResult(id, _) =>
      var node := s.nodes[id.node].(delivery := Delivered);
      m.(data := SetEffect(SetNode(s, id.node, node), id, s.effects[id].(status := Received)))
    case LoseReceive(ids) => m.(data := Halt(Doubt(s, ids)))
    case StartCompute(id) => m.(data := SetNode(s, id, s.nodes[id].(compute := Running)))
    case FinishCompute(id, outcome) =>
      var node := s.nodes[id];
      m.(data := match outcome
        case Succeeded(result) => SetNode(s, id, node.(compute := ResultReady, evidence := Some(result)))
        case TaskFailed => BlockJob(SetNode(s, id, node.(compute := ComputeFailed)), node.job)
        case _ => BlockJob(SetNode(s, id, node.(compute := ComputeAmbiguous)), node.job))
    case SpendGet => m.(data := s.(budgets := s.budgets.(gets := s.budgets.gets + 1)))
    case SpendInference => m.(data := s.(budgets := s.budgets.(inference := s.budgets.inference + 1)))
    case Complete => m.(data := CompleteJobs(s))
    case HaltSession => m.(data := Halt(s))
    case Pause => m.(data := s.(lifecycle := Paused))
    case Continue => m.(data := s.(lifecycle := Active))
    case Stop =>
      m.(data := Doubt(s, Unsettled(s)).(lifecycle := if s.lifecycle.Halted? then Halted else Stopping))
    case Close => m.(data := s.(lifecycle := Stopped))
  }

  predicate Enabled(p: Policy, w: World, x: Step) {
    match x
    case Crash => true
    case Reopen => p.offline && w.memory.None?
    case Save => w.memory.Some?
    case Post(_) =>
      // Only a saved intent reaches the transport; authority is checked once more after the save.
      && w.memory.Some? && w.memory.value.send.Intended? && w.disk == w.memory.value.data
      && w.disk.lifecycle.Active?
      && w.memory.value.send.effect in w.disk.effects
      && EffectAuthorized(p, w.disk, w.memory.value.send.effect, w.disk.effects[w.memory.value.send.effect])
    case Do(a) => w.memory.Some? && MemoryEnabled(p, w.memory.value, a)
  }

  function Taken(taken: map<EffectId, Mail>, a: Action): map<EffectId, Mail> {
    if a.TakeProposal? || a.TakeResult? then taken[a.effect := a.mail] else taken
  }

  function Reopened(disk: Session): Memory {
    Memory(disk.(lifecycle := Starting), set e | e in disk.effects :: disk.effects[e].target, Idle, false)
  }

  function Apply(p: Policy, w: World, x: Step): World
    requires Enabled(p, w, x)
  {
    match x
    case Crash => w.(memory := None)
    case Reopen => w.(memory := Some(Reopened(w.disk)))
    case Save => w.(disk := w.memory.value.data)
    case Post(reply) =>
      var m := w.memory.value;
      w.(memory := Some(m.(send := InFlight(m.send.effect, reply))), posts := w.posts + [m.send.effect],
         answers := w.answers[m.send.effect := reply])
    case Do(a) => w.(memory := Some(ApplyMemory(p, w.memory.value, a)), taken := Taken(w.taken, a))
  }

  const EmptySession := Session(Starting, Budgets(0, 0, 0, 0), map[], map[], map[], map[])

  /** A session that has just been opened for the first time and saved once. */
  const Initial := World(Some(Memory(EmptySession, {}, Idle, true)), EmptySession, [], map[], map[])

  /** `log` is a run of enabled steps from `w` to `v`. */
  ghost predicate Run(p: Policy, w: World, log: seq<Step>, v: World)
    decreases |log|
  {
    if log == [] then w == v
    else Enabled(p, w, log[0]) && Run(p, Apply(p, w, log[0]), log[1..], v)
  }
}
