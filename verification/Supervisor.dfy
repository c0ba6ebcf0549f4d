/**
 The supervisor's methods. Each is proved to take exactly the listed steps of the session machine, so
 everything proved about runs holds of it; a crash may cut any of the lists short.
 */
module Supervisor {
  import opened Wrappers
  import opened Sessions
  import SessionReopen

  lemma {:induction false} RunSnoc(p: Policy, w: World, log: seq<Step>, v: World, x: Step)
    requires Run(p, w, log, v) && Enabled(p, v, x)
    ensures Run(p, w, log + [x], Apply(p, v, x))
    decreases |log|
  {
    hide Enabled, Apply;
    if log == [] {
      assert Run(p, Apply(p, w, x), [], Apply(p, v, x));
      assert [x][1..] == [];
    } else {
      RunSnoc(p, Apply(p, w, log[0]), log[1..], v, x);
      assert (log + [x])[1..] == log[1..] + [x];
    }
  }

  /** How the send of one prepared effect goes outside this process, and whether authority is still in time. */
  datatype Course = Course(
    reachesDispatch: bool,   // the runtime's own task, approval and nonce steps get that far
    throws: bool,            // otherwise: they throw, instead of leaving an unsuccessful task
    nonce: Nonce,
    liveAtIntent: bool,
    liveAtPost: bool,
    reply: Reply,
    receiptSaved: bool,
    taskSucceeds: bool)

  // ------------------------------------------------------- steps taken, case by case

  function RootSteps(p: Policy, m: Memory, a: Action, live: bool, enqueued: bool): seq<Step>
    requires a.SubmitRoot?
  {
    if live && MemoryEnabled(p, m, a) then [Do(a), Save, Do(EnqueueRoot(a.job, enqueued)), Save] else []
  }

  /** After the recorded intent: one post, or none; never two. */
  function DispatchSteps(p: Policy, m: Memory, c: Course): seq<Step>
    requires m.send.Preparing? && m.send.effect in m.data.effects
  {
    if !c.liveAtIntent || !MemoryEnabled(p, m, Intend(c.nonce)) then []
    else [Do(Intend(c.nonce)), Save] + SettleSteps(c)
  }

  function SettleSteps(c: Course): seq<Step> {
    if c.liveAtPost then [Post(c.reply)] + ReplySteps(c.reply, c.receiptSaved) else [Do(NoReceipt(false)), Save]
  }

  function ReplySteps(reply: Reply, receiptSaved: bool): seq<Step> {
    match reply
    case Posted(n) => [Do(Receipt(n)), Save] + (if receiptSaved then [] else [Do(DoubtReceipt), Save])
    case RejectedPost => [Do(NoReceipt(true)), Save]
    case NoReply => [Do(NoReceipt(false)), Save]
  }

  lemma IntentKeepsAuthority(p: Policy, m: Memory, nonce: Nonce)
    requires MemoryEnabled(p, m, Intend(nonce))
    ensures var t := ApplyMemory(p, m, Intend(nonce)).data;
      t.lifecycle.Active? && EffectAuthorized(p, t, m.send.effect, t.effects[m.send.effect])
  {
    hide WorkloadAllowed, DelegationAllowed, PairAllowed;
    var t := ApplyMemory(p, m, Intend(nonce)).data;
    assert forall job :: ProposalActive(t, job) == ProposalActive(m.data, job);
  }

  /** What the second check and the reply make of an intended effect; nothing else in the session changes. */
  ghost predicate SettleEnds(s: Session, t: Session, id: EffectId, live: bool, reply: Reply, saved: bool)
    requires id in s.effects
  {
    && id in t.effects && t == s.(effects := s.effects[id := t.effects[id]], lifecycle := t.lifecycle)
    && var e, posted := t.effects[id], live && reply.Posted?;
    && e == s.effects[id].(status := e.status, seqNo := e.seqNo)
    && (e.status.Sent? <==> posted && saved)
    && (e.status.Failed? <==> live && reply.RejectedPost?)
    && (e.status.Ambiguous? <==> !live || reply.NoReply? || (posted && !saved))
    && e.seqNo == (if posted then Some(reply.seqNo) else s.effects[id].seqNo)
    && t.lifecycle == if e.status.Sent? then s.lifecycle else Halted
  }

  /** How a dispatch ends: not begun, or intended once and then as the network answered. */
  ghost predicate DispatchEnds(p: Policy, m: Memory, t: Session, c: Course)
    requires m.send.Preparing? && m.send.effect in m.data.effects
  {
    var s, id := m.data, m.send.effect;
    if !c.liveAtIntent || !MemoryEnabled(p, m, Intend(c.nonce)) then t == s
    else
      SettleEnds(s.(effects := s.effects[id := s.effects[id].(status := Sending, nonce := Some(c.nonce))],
                    budgets := s.budgets.(outbound := s.budgets.outbound + 1)), t, id, c.liveAtPost, c.reply, c.receiptSaved)
  }

  /** How the send task leaves the session after its dispatch: its own failure halts, and only success marks a result as sent. */
  ghost predicate TaskEnds(s: Session, t: Session, id: EffectId, fate: SendFate)
    requires id in s.effects && id.node in s.nodes
  {
    match fate
    case SendSucceeded =>
      t == if id.kind.Result? then s.(nodes := s.nodes[id.node := s.nodes[id.node].(delivery := ResultSent)]) else s
    case SendThrew => t == s
    case SendUnsuccessful =>
      && t.lifecycle.Halted? && id in t.effects
      && t.effects[id].status == (if s.effects[id].status.Prepared? then Failed else s.effects[id].status)
      && t == s.(lifecycle := Halted, effects := s.effects[id := s.effects[id].(status := t.effects[id].status)])
  }

  /** How a node's own run ends: with its result, or blocking its job. */
  ghost predicate ComputeEnds(s: Session, t: Session, id: NodeId, outcome: Fate)
    requires id in s.nodes && s.nodes[id].job in s.jobs
  {
    var v, job := s.nodes[id], s.nodes[id].job;
    && id in t.nodes && t == s.(nodes := s.nodes[id := t.nodes[id]], jobs := t.jobs)
    && (t.nodes[id].compute.ResultReady? <==> outcome.Succeeded?)
    && (t.nodes[id].compute.ComputeFailed? <==> outcome.TaskFailed?)
    && (t.nodes[id].compute.ComputeAmbiguous? <==> !outcome.Succeeded? && !outcome.TaskFailed?)
    && t.nodes[id] == v.(compute := t.nodes[id].compute, evidence := if outcome.Succeeded? then Some(outcome.result) else v.evidence)
    && t.jobs == if outcome.Succeeded? then s.jobs else s.jobs[job := s.jobs[job].(status := Blocked)]
  }

  /** How a prepared send ends: its dispatch, if the task got that far, leaves `mid`; then the task's own end. */
  ghost predicate SendEnds(p: Policy, m: Memory, mid: Session, t: Session, c: Course)
    requires m.send.Preparing? && m.send.effect in m.data.effects && m.send.effect.node in m.data.nodes
  {
    var id := m.send.effect;
    && (if c.reachesDispatch then DispatchEnds(p, m, mid, c) else mid == m.data)
    && id in mid.effects && mid.nodes == m.data.nodes
    && var delivered := c.reachesDispatch && mid.effects[id].status.Sent? && Delivers(p, m, c);
    TaskEnds(mid, t, id, if delivered && c.taskSucceeds then SendSucceeded else if c.throws then SendThrew else SendUnsuccessful)
  }

  function PreparedFor(m: Memory, id: EffectId): Memory
    requires Sendable(m.data, id)
  {
    Memory(m.data.(effects := m.data.effects[id := NewEffect(m.data, id)]), m.lost, Preparing(id), m.restored)
  }

  /** How the sending of one effect ends: left to the operator when its room is lost, not begun, or prepared and sent once. */
  ghost predicate EffectEnds(p: Policy, m: Memory, t: Session, id: EffectId, live: bool, c: Course)
    requires Sendable(m.data, id)
  {
    var s, v := m.data, m.data.nodes[id.node];
    if NewEffect(s, id).target in m.lost then
      t == s.(nodes := s.nodes[id.node := v.(delivery := NeedsOperator)], jobs := s.jobs[v.job := s.jobs[v.job].(status := Blocked)])
    else if !live || !MemoryEnabled(p, m, Prepare(id)) then t == s
    else exists mid :: SendEnds(p, PreparedFor(m, id), mid, t, c)
  }

  /** How the run of an accepted node ends: not begun, still running when the runtime threw, or as it reported. */
  ghost predicate RunEnds(p: Policy, m: Memory, t: Session, id: NodeId, live: bool, outcome: Option<Fate>)
    requires Runnable(m.data, id)
  {
    var running := SetNode(m.data, id, m.data.nodes[id].(compute := Running));
    if !live || !MemoryEnabled(p, m, StartCompute(id)) then t == m.data
    else if outcome.None? then t == running
    else ComputeEnds(running, t, id, outcome.value)
  }

  /** A submitted root and its job, as the runtime took the task. */
  ghost predicate RootEnds(s: Session, t: Session, job: JobId, alias: Alias, workload: Workload, authority: Authority,
                           flow: Option<seq<Alias>>, enqueued: bool)
  {
    var root := Root(job);
    && t == s.(nodes := t.nodes, jobs := t.jobs, budgets := s.budgets.(tasks := s.budgets.tasks + 1))
    && t.nodes == s.nodes[root := Node(job, alias, workload, None, [], 0, if enqueued then Accepted else ComputeFailed, Local,
                                       if enqueued then Some(OwnTask(root)) else None, None)]
    && t.jobs == s.jobs[job := Job(authority, [root], if enqueued then JobAccepted else Blocked, flow)]
  }

  /** A delegated child: planned, one deeper than its parent, last of its job's tasks. */
  ghost predicate ChildEnds(s: Session, t: Session, parent: NodeId, target: Alias, workload: Workload, payload: Hash,
                            dependencies: seq<NodeId>)
  {
    var id := Child(parent, target, workload, payload, dependencies);
    && parent in s.nodes && s.nodes[parent].job in s.jobs
    && var job := s.nodes[parent].job;
    && t == s.(nodes := t.nodes, jobs := t.jobs, budgets := s.budgets.(tasks := s.budgets.tasks + 1))
    && t.nodes == s.nodes[id := Node(job, target, workload, Some(parent), dependencies, s.nodes[parent].depth + 1,
                                     Planned, Undelivered, None, None)]
    && t.jobs == s.jobs[job := s.jobs[job].(tasks := s.jobs[job].tasks + [id], status := JobRunning)]
  }

  predicate Posts(p: Policy, m: Memory, c: Course)
    requires m.send.Preparing? && m.send.effect in m.data.effects
  {
    c.liveAtIntent && MemoryEnabled(p, m, Intend(c.nonce)) && c.liveAtPost
  }

  predicate Delivers(p: Policy, m: Memory, c: Course)
    requires m.send.Preparing? && m.send.effect in m.data.effects
  {
    Posts(p, m, c) && c.reply.Posted? && c.receiptSaved
  }

  function EndFate(p: Policy, m: Memory, c: Course): SendFate
    requires m.send.Preparing? && m.send.effect in m.data.effects
  {
    if c.reachesDispatch && Delivers(p, m, c) && c.taskSucceeds then SendSucceeded
    else if c.throws then SendThrew else SendUnsuccessful
  }

  function SendSteps(p: Policy, m: Memory, id: EffectId, live: bool, c: Course): seq<Step>
    requires Sendable(m.data, id)
  {
    if NewEffect(m.data, id).target in m.lost then [Do(RefuseSend(id)), Save]
    else if !live || !MemoryEnabled(p, m, Prepare(id)) then []
    else
      var n := ApplyMemory(p, m, Prepare(id));
      [Do(Prepare(id)), Save]
      + (if c.reachesDispatch then DispatchSteps(p, n, c) else [])
      + [Do(EndSend(EndFate(p, n, c)))]
      + (if EndFate(p, n, c).SendThrew? then [] else [Save])
  }

  function DelegateSteps(p: Policy, m: Memory, a: Action, live: bool): seq<Step>
    requires a.Delegate?
  {
    if live && MemoryEnabled(p, m, a) then [Do(a), Save] else []
  }

  /** `None` when the runtime itself throws; the node then stays running. */
  function ComputeSteps(p: Policy, m: Memory, id: NodeId, live: bool, outcome: Option<Fate>): seq<Step> {
    if !live || !MemoryEnabled(p, m, StartCompute(id)) then []
    else [Do(StartCompute(id)), Save] + if outcome.None? then [] else [Do(FinishCompute(id, outcome.value)), Save]
  }

  // ----------------------------------------------------------------------- receiving

  datatype Offer = Offer(key: IntakeKey, workload: Workload, hash: Hash, waiting: bool)

  /** An inbox message, with what parsing and the peer's runtime make of it. */
  datatype Message =
    | FromPeer(source: Alias, text: Text, seqNo: nat, nonce: Nonce, verified: bool, usable: bool, record: IntakeKey)
    | Outside(record: IntakeKey, offer: Option<Offer>)

  function EffectOfText(text: Text): EffectId {
    EffectId(text.node, if text.ProposalText? then Proposal else Result)
  }

  function MailOf(alias: Alias, msg: Message): Mail
    requires msg.FromPeer?
  {
    Mail(alias, msg.source, msg.text, msg.seqNo, msg.nonce)
  }

  function TakeAction(id: EffectId, mail: Mail): Action {
    if id.kind.Proposal? then TakeProposal(id, mail) else TakeResult(id, mail)
  }

  predicate Takes(p: Policy, m: Memory, alias: Alias, msg: Message)
    requires msg.FromPeer?
  {
    msg.verified && msg.usable && MemoryEnabled(p, m, TakeAction(EffectOfText(msg.text), MailOf(alias, msg)))
  }

  /** An outside proposal is recorded once; the same proposal again changes nothing, a different one revokes it. */
  function OfferAction(s: Session, record: IntakeKey, offer: Offer): Option<Action> {
    if offer.key !in s.intakes then
      Some(RecordIntake(offer.key, Intake(if offer.waiting then IntakeWaiting else IntakeRejected, offer.workload, offer.hash, None)))
    else if s.intakes[offer.key].hash != offer.hash then Some(ContradictIntake(offer.key, record))
    else None
  }

  /** What one message does; a peer's message that does not complete its effect fails the whole receive. */
  function MessageAction(p: Policy, m: Memory, alias: Alias, msg: Message): (a: Option<Action>)
    ensures a.Some? ==> MemoryEnabled(p, m, a.value)
  {
    match msg
    case FromPeer(_, text, _, _, verified, _, record) =>
      if !verified then Some(RecordIntake(record, RejectedIntake))
      else if Takes(p, m, alias, msg) then Some(TakeAction(EffectOfText(text), MailOf(alias, msg)))
      else None
    case Outside(record, offer) =>
      if offer.None? then Some(RecordIntake(record, RejectedIntake)) else OfferAction(m.data, record, offer.value)
  }

  predicate MessageOk(p: Policy, m: Memory, alias: Alias, msg: Message) {
    msg.FromPeer? ==> Takes(p, m, alias, msg)
  }

  datatype Classified = Classified(steps: seq<Step>, memory: Memory, ok: bool)

  function Classify(p: Policy, m: Memory, alias: Alias, messages: seq<Message>): Classified {
    if messages == [] then Classified([], m, true)
    else
      var before := Classify(p, m, alias, messages[..|messages| - 1]);
      var msg := messages[|messages| - 1];
      if !before.ok then before
      else
        var a := MessageAction(p, before.memory, alias, msg);
        var steps := before.steps + if a.None? then [] else [Do(a.value)];
        Classified(steps, if a.None? then before.memory else ApplyMemory(p, before.memory, a.value),
                   MessageOk(p, before.memory, alias, msg))
  }

  /** What happens to one receive outside this process. */
  datatype Inbox = Inbox(live: bool, liveAtRead: bool, fetched: bool, messages: seq<Message>, acknowledged: bool)

  predicate AllReceived(s: Session, expected: set<EffectId>) {
    forall e | e in expected :: e in s.effects && s.effects[e].status.Received?
  }

  function LoseSteps(expected: set<EffectId>): seq<Step> {
    [Do(LoseReceive(expected)), Save]
  }

  function MessageSteps(c: Classified, expected: set<EffectId>, inbox: Inbox): seq<Step> {
    c.steps
    + (if !c.ok || !AllReceived(c.memory.data, expected) then LoseSteps(expected)
       else [Save] + (if inbox.acknowledged then [Do(Complete), Save] else LoseSteps(expected)))
  }

  function IntakeSteps(p: Policy, m: Memory, alias: Alias, expected: set<EffectId>, inbox: Inbox): seq<Step>
    requires m.data.lifecycle.Active?
  {
    if !inbox.liveAtRead || m.data.budgets.gets >= p.limits.gets then LoseSteps(expected)
    else
      [Do(SpendGet), Save]
      + (if inbox.fetched then [Save] + MessageSteps(Classify(p, ApplyMemory(p, m, SpendGet), alias, inbox.messages), expected, inbox)
         else LoseSteps(expected))
  }

  /** One bounded read: everything that was sent to the peer is received, or all that was not becomes ambiguous. */
  function ReceiveSteps(p: Policy, m: Memory, alias: Alias, inbox: Inbox): seq<Step>
    requires m.send.Idle?
  {
    if !inbox.live || !m.data.lifecycle.Active? then []
    else
      [Do(StartReceive(alias)), Save]
      + IntakeSteps(p, ApplyMemory(p, m, StartReceive(alias)), alias, SentTo(m.data, alias), inbox)
  }

  ghost predicate Awaited(s: Session, expected: set<EffectId>) {
    forall e | e in expected :: e in s.effects && (s.effects[e].status.Receiving? || s.effects[e].status.Received?)
  }

  lemma {:induction false} ClassifyKeepsAwaited(p: Policy, m: Memory, alias: Alias, messages: seq<Message>, expected: set<EffectId>)
    requires Awaited(m.data, expected)
    ensures Awaited(Classify(p, m, alias, messages).memory.data, expected)
    decreases |messages|
  {
    if messages != [] {
      hide MessageAction, MessageOk, MemoryEnabled, ApplyMemory, Awaited;
      var before := Classify(p, m, alias, messages[..|messages| - 1]);
      ClassifyKeepsAwaited(p, m, alias, messages[..|messages| - 1], expected);
      MessageKeepsAwaited(p, before.memory, alias, messages[|messages| - 1], expected);
    }
  }

  lemma TakeKeepsAwaited(p: Policy, m: Memory, id: EffectId, mail: Mail, expected: set<EffectId>)
    requires Awaited(m.data, expected) && MemoryEnabled(p, m, TakeAction(id, mail))
    ensures Awaited(ApplyMemory(p, m, TakeAction(id, mail)).data, expected)
  {
    hide EffectAuthorized, TextFor;
    assert EffectAuthorized(p, m.data, id, m.data.effects[id]);
    AuthorizedHasNode(p, m.data, id, m.data.effects[id]);
  }

  lemma MessageKeepsAwaited(p: Policy, m: Memory, alias: Alias, msg: Message, expected: set<EffectId>)
    requires Awaited(m.data, expected)
    ensures var a := MessageAction(p, m, alias, msg);
      a.Some? ==> MemoryEnabled(p, m, a.value) && Awaited(ApplyMemory(p, m, a.value).data, expected)
  {
    hide EffectAuthorized, TextFor, Awaited, IsMail;
    if msg.FromPeer? && msg.verified && Takes(p, m, alias, msg) {
      TakeKeepsAwaited(p, m, EffectOfText(msg.text), MailOf(alias, msg), expected);
    } else {
      var a := MessageAction(p, m, alias, msg);
      if a.Some? {
        SameEffectsAwaited(m.data, ApplyMemory(p, m, a.value).data, expected);
      }
    }
  }

  /** What is read once the receive is recorded and its budget spent. */
  function Reading(p: Policy, m: Memory, alias: Alias, inbox: Inbox): Classified
    requires m.send.Idle? && m.data.lifecycle.Active? && m.data.budgets.gets < p.limits.gets
  {
    Classify(p, ApplyMemory(p, ApplyMemory(p, m, StartReceive(alias)), SpendGet), alias, inbox.messages)
  }

  /** A read is whole when it happens in time, every message does what it should, and nothing expected is missing. */
  predicate ReadsWhole(p: Policy, m: Memory, alias: Alias, inbox: Inbox)
    requires m.send.Idle? && m.data.lifecycle.Active?
  {
    && inbox.liveAtRead && m.data.budgets.gets < p.limits.gets && inbox.fetched && inbox.acknowledged
    && Reading(p, m, alias, inbox).ok && AllReceived(Reading(p, m, alias, inbox).memory.data, SentTo(m.data, alias))
  }

  /** How a read ends: whole, with everything expected received; or halted, with all that was not received ambiguous. */
  ghost predicate ReadEnds(t: Session, expected: set<EffectId>, whole: bool, lifecycle: Lifecycle) {
    && (whole ==> AllReceived(t, expected) && t.lifecycle == lifecycle)
    && (!whole ==>
          && t.lifecycle.Halted?
          && forall e | e in expected :: e in t.effects && (t.effects[e].status.Received? || t.effects[e].status.Ambiguous?))
  }

  lemma DoubtedIsRead(s: Session, expected: set<EffectId>)
    requires Awaited(s, expected)
    ensures forall lifecycle :: ReadEnds(Halt(Doubt(s, expected)), expected, false, lifecycle)
  {
  }

  lemma CompletedIsRead(s: Session, expected: set<EffectId>)
    ensures AllReceived(s, expected) ==> ReadEnds(CompleteJobs(s), expected, true, s.lifecycle)
  {
    hide Finished;
  }

  lemma {:induction false} ClassifyKeepsLifecycle(p: Policy, m: Memory, alias: Alias, messages: seq<Message>)
    ensures Classify(p, m, alias, messages).memory.data.lifecycle == m.data.lifecycle
    decreases |messages|
  {
    if messages != [] {
      hide MessageAction, MessageOk, MemoryEnabled, ApplyMemory;
      ClassifyKeepsLifecycle(p, m, alias, messages[..|messages| - 1]);
      MessageKeepsLifecycle(p, Classify(p, m, alias, messages[..|messages| - 1]).memory, alias, messages[|messages| - 1]);
    }
  }

  lemma MessageKeepsLifecycle(p: Policy, m: Memory, alias: Alias, msg: Message)
    ensures var a := MessageAction(p, m, alias, msg); a.Some? ==> ApplyMemory(p, m, a.value).data.lifecycle == m.data.lifecycle
  {
    hide EffectAuthorized, TextFor, IsMail, MemoryEnabled, ApplyMemory, Takes;
    var a := MessageAction(p, m, alias, msg);
    if a.Some? {
      ReadingKeepsLifecycle(p, m, a.value);
    }
  }

  lemma ReadingKeepsLifecycle(p: Policy, m: Memory, a: Action)
    requires MemoryEnabled(p, m, a) && (a.RecordIntake? || a.ContradictIntake? || a.TakeProposal? || a.TakeResult?)
    ensures ApplyMemory(p, m, a).data.lifecycle == m.data.lifecycle
  {
    hide EffectAuthorized, TextFor, IsMail;
  }

  lemma SameEffectsAwaited(s: Session, t: Session, expected: set<EffectId>)
    requires Awaited(s, expected) && t.effects == s.effects
    ensures Awaited(t, expected)
  {
  }

  lemma MarkedIsBegun(p: Policy, m: Memory, alias: Alias)
    requires m.data.lifecycle.Active? && m.send.Idle?
    ensures MemoryEnabled(p, m, StartReceive(alias)) && SentTo(m.data, alias) <= m.data.effects.Keys
    ensures var effects := map e | e in m.data.effects ::
        if e in SentTo(m.data, alias) && !m.data.effects[e].status.Received? then m.data.effects[e].(status := Receiving)
        else m.data.effects[e];
      && ApplyMemory(p, m, StartReceive(alias)) == m.(data := m.data.(effects := effects))
      && Awaited(m.data.(effects := effects), SentTo(m.data, alias))
  {
  }

  /** What a stop makes of an effect: half sent or half received is ambiguous, anything else stays. */
  predicate StopsAs(e: Effect, f: Effect) {
    f == if e.status.Sending? || e.status.Receiving? then e.(status := Ambiguous) else e
  }

  /** The loop over effects: every listed one that was not received gets the status. */
  method Marked(effects: map<EffectId, Effect>, ids: set<EffectId>, status: Status) returns (r: map<EffectId, Effect>)
    requires ids <= effects.Keys
    ensures r == map e | e in effects ::
      if e in ids && !effects[e].status.Received? then effects[e].(status := status) else effects[e]
  {
    var todo := ids;
    r := effects;
    while todo != {}
      invariant todo <= ids && r.Keys == effects.Keys
      invariant forall e | e in todo :: r[e] == effects[e]
      invariant forall e | e in effects.Keys - todo ::
        r[e] == (if e in ids && !effects[e].status.Received? then effects[e].(status := status) else effects[e])
      decreases todo
    {
      var e :| e in todo;
      if !r[e].status.Received? {
        r := r[e := r[e].(status := status)];
      }
      todo := todo - {e};
    }
  }

  // ------------------------------------------------------------------- scheduling

  /** A place in the fixed order of the five peers. */
  type Place = k: nat | k < 5

  function AliasAt(k: Place): Alias {
    match k
    case 0 => Alice
    case 1 => Bob
    case 2 => Charlie
    case 3 => Dave
    case _ => Eve
  }

  function PlaceOf(alias: Alias): (k: Place)
    ensures AliasAt(k) == alias
  {
    match alias
    case Alice => 0
    case Bob => 1
    case Charlie => 2
    case Dave => 3
    case Eve => 4
  }

  /** The place `offset` further on, round the five. */
  function Around(turn: Place, offset: Place): Place {
    if turn + offset < 5 then turn + offset else turn + offset - 5
  }

  predicate OpenJob(s: Session, id: NodeId) {
    id in s.nodes && s.nodes[id].job in s.jobs && !s.jobs[s.nodes[id].job].status.Blocked?
  }

  predicate Incoming(s: Session, alias: Alias) {
    exists e | e in s.effects :: s.effects[e].target == alias && s.effects[e].status.Sent? && OpenJob(s, e.node)
  }

  predicate Eligible(s: Session, alias: Alias, id: NodeId) {
    && OpenJob(s, id) && s.nodes[id].alias == alias && !s.nodes[id].delivery.NeedsOperator?
    && var node := s.nodes[id];
    || (node.compute.Planned? && AllReady(s, node.dependencies))
    || node.compute.Accepted?
    || (node.compute.ResultReady? && node.delivery.Undelivered?)
  }

  /** A receipt to read, a node to advance, or a scheduled look at the peer's mailbox. */
  predicate HasWork(s: Session, due: set<Alias>, alias: Alias) {
    Incoming(s, alias) || (exists id | id in s.nodes :: Eligible(s, alias, id)) || alias in due
  }

  datatype Choice = Nothing | Read(reader: Alias) | Advance(node: NodeId)

  /** How many peers come before this one in the current round. */
  function Distance(turn: Place, alias: Alias): (d: Place)
    ensures AliasAt(Around(turn, d)) == alias
  {
    if PlaceOf(alias) >= turn then PlaceOf(alias) - turn else PlaceOf(alias) + 5 - turn
  }

  predicate FirstWithWork(s: Session, due: set<Alias>, turn: Place, alias: Alias) {
    HasWork(s, due, alias) && forall b | Distance(turn, b) < Distance(turn, alias) :: !HasWork(s, due, b)
  }

  function Chooser(s: Session, choice: Choice): Alias
    requires choice.Read? || (choice.Advance? && choice.node in s.nodes)
  {
    if choice.Read? then choice.reader else s.nodes[choice.node].alias
  }

  /** `choice` is work of the first peer in turn that has any: receipts before nodes before scheduled reads. */
  predicate Chosen(s: Session, due: set<Alias>, turn: Place, choice: Choice) {
    match choice
    case Nothing => forall b: Alias :: !HasWork(s, due, b)
    case Read(a) => FirstWithWork(s, due, turn, a) &&
      (Incoming(s, a) || forall id | id in s.nodes :: !Eligible(s, a, id))
    case Advance(id) =>
      && id in s.nodes && Eligible(s, s.nodes[id].alias, id)
      && FirstWithWork(s, due, turn, s.nodes[id].alias) && !Incoming(s, s.nodes[id].alias)
  }

  /** Serving another peer brings a peer with work strictly closer, so it waits for at most four others. */
  lemma TurnsComeRound(s: Session, due: set<Alias>, turn: Place, choice: Choice, alias: Alias)
    requires Chosen(s, due, turn, choice) && HasWork(s, due, alias)
    ensures !choice.Nothing?
    ensures var served := Chooser(s, choice);
      served == alias || Distance(Around(PlaceOf(served), 1), alias) < Distance(turn, alias)
  {
    hide Incoming, Eligible, HasWork, Distance, PlaceOf;
    if !choice.Nothing? {
      DistanceShrinks(turn, Chooser(s, choice), alias);
    }
  }

  lemma DistanceShrinks(turn: Place, served: Alias, alias: Alias)
    ensures Distance(turn, served) == Distance(turn, alias) ==> served == alias
    ensures Distance(turn, served) < Distance(turn, alias) ==>
      Distance(Around(PlaceOf(served), 1), alias) == Distance(turn, alias) - Distance(turn, served) - 1
  {
    assert PlaceOf(served) == PlaceOf(alias) ==> served == alias by {
      assert AliasAt(PlaceOf(served)) == served && AliasAt(PlaceOf(alias)) == alias;
    }
    hide PlaceOf, AliasAt;
  }

  predicate SendThrows(p: Policy, m: Memory, id: EffectId, live: bool, c: Course)
    requires Sendable(m.data, id)
  {
    NewEffect(m.data, id).target !in m.lost &&
    (!live || !MemoryEnabled(p, m, Prepare(id)) || EndFate(p, ApplyMemory(p, m, Prepare(id)), c).SendThrew?)
  }

  function NextEffect(s: Session, id: NodeId): EffectId
    requires id in s.nodes
  {
    EffectId(id, if s.nodes[id].compute.Planned? then Proposal else Result)
  }

  /** One node advanced by one stage: sent to its peer, run there, or answered. */
  function NodeSteps(p: Policy, m: Memory, id: NodeId, live: bool, c: Course, outcome: Option<Fate>): seq<Step>
    requires id in m.data.nodes
  {
    if !live || !NodeAuthorized(p, m.data, m.data.nodes[id]) then []
    else if Runnable(m.data, id) then ComputeSteps(p, m, id, live, outcome)
    else if Sendable(m.data, NextEffect(m.data, id)) then SendSteps(p, m, NextEffect(m.data, id), live, c)
    else []
  }

  /** One stage of one node: its run, its next message, or nothing. */
  ghost predicate NodeEnds(p: Policy, m: Memory, t: Session, id: NodeId, live: bool, c: Course, outcome: Option<Fate>)
    requires id in m.data.nodes
  {
    if !live || !NodeAuthorized(p, m.data, m.data.nodes[id]) then t == m.data
    else if Runnable(m.data, id) then RunEnds(p, m, t, id, live, outcome)
    else if Sendable(m.data, NextEffect(m.data, id)) then EffectEnds(p, m, t, NextEffect(m.data, id), live, c)
    else t == m.data
  }

  predicate NodeThrows(p: Policy, m: Memory, id: NodeId, live: bool, c: Course, outcome: Option<Fate>)
    requires id in m.data.nodes
  {
    if !live || !NodeAuthorized(p, m.data, m.data.nodes[id]) then true
    else if Runnable(m.data, id) then outcome.None? || !MemoryEnabled(p, m, StartCompute(id))
    else if Sendable(m.data, NextEffect(m.data, id)) then SendThrows(p, m, NextEffect(m.data, id), live, c)
    else true
  }

  function ServeSteps(p: Policy, m: Memory, choice: Choice, live: bool, inbox: Inbox, c: Course, outcome: Option<Fate>): seq<Step>
    requires m.send.Idle? && (choice.Advance? ==> choice.node in m.data.nodes)
  {
    match choice
    case Nothing => []
    case Read(a) =>
      ReceiveSteps(p, m, a, inbox) + (if inbox.live && m.data.lifecycle.Active? then [] else [Do(HaltSession), Save])
    case Advance(id) =>
      NodeSteps(p, m, id, live, c, outcome)
      + (if NodeThrows(p, m, id, live, c, outcome) then [Do(HaltSession), Save] else [Do(Complete), Save])
  }

  /** How one served piece of work ends; an exception halts the session. */
  ghost predicate ServeEnds(p: Policy, m: Memory, t: Session, choice: Choice, live: bool, inbox: Inbox, c: Course, outcome: Option<Fate>)
    requires m.send.Idle? && (choice.Advance? ==> choice.node in m.data.nodes)
  {
    match choice
    case Nothing => t == m.data
    case Read(alias) =>
      if !inbox.live || !m.data.lifecycle.Active? then t == Halt(m.data)
      else
        && ReadEnds(t, SentTo(m.data, alias), ReadsWhole(p, m, alias, inbox), Active)
        && (ReadsWhole(p, m, alias, inbox) ==> t == CompleteJobs(Reading(p, m, alias, inbox).memory.data))
    case Advance(id) =>
      exists mid ::
        NodeEnds(p, m, mid, id, live, c, outcome)
        && t == if NodeThrows(p, m, id, live, c, outcome) then Halt(mid) else CompleteJobs(mid)
  }

  // -------------------------------------------------------------- operator flows

  /** The fixed work of each role in an operator's flow. */
  function FlowWorkload(alias: Alias): Workload {
    match alias
    case Alice => "workload.coordination"
    case Bob => "workload.research"
    case Charlie => "workload.engineering"
    case Dave => "workload.review"
    case Eve => "workload.specialist"
  }

  /** What is built for the next node of a flow, if its input is accepted, and whether authority is in time. */
  datatype FlowInput = FlowInput(payload: Option<Hash>, live: bool)

  predicate FlowWaits(s: Session, j: JobId) {
    j !in s.jobs || s.jobs[j].flow.None? || s.jobs[j].status.Blocked?
    || |s.jobs[j].tasks| >= |s.jobs[j].flow.value| || s.jobs[j].tasks == []
    || s.jobs[j].tasks[|s.jobs[j].tasks| - 1] !in s.nodes
  }

  /** A flow goes on from finished work, and stops for the operator when that work failed or cannot be passed on. */
  function FlowAction(p: Policy, m: Memory, j: JobId, input: FlowInput): Option<Action> {
    var s := m.data;
    if FlowWaits(s, j) then None
    else
      var job := s.jobs[j];
      var parent := job.tasks[|job.tasks| - 1];
      var node := s.nodes[parent];
      if node.compute.ComputeFailed? || node.compute.ComputeAmbiguous? || node.delivery.NeedsOperator? then Some(Block(j))
      else if !Ready(s, parent) then None
      else
        var target := job.flow.value[|job.tasks|];
        if input.payload.None? then Some(Block(j))
        else
          var a := Delegate(parent, target, FlowWorkload(target), input.payload.value, [parent]);
          if DelegateAnswers(p, s, a, input.live) && DelegateId(a) in s.nodes then None
          else if input.live && MemoryEnabled(p, m, a) then Some(a)
          else Some(Block(j))
  }

  function DelegateId(a: Action): NodeId
    requires a.Delegate?
  {
    Child(a.parent, a.target, a.workload, a.payload, a.dependencies)
  }

  /** The checks made before a repeated request is recognised. */
  predicate DelegateAnswers(p: Policy, s: Session, a: Action, live: bool)
    requires a.Delegate?
  {
    && live && s.lifecycle.Active? && s.budgets.tasks < p.limits.tasks
    && a.parent in s.nodes && s.nodes[a.parent].alias != a.target && a.parent in a.dependencies
    && forall d | d in a.dependencies :: d in s.nodes && s.nodes[d].job == s.nodes[a.parent].job
  }

  datatype Flowed = Flowed(steps: seq<Step>, memory: Memory)

  function AdvanceFlows(p: Policy, m: Memory, jobs: seq<JobId>, input: JobId -> FlowInput): Flowed {
    if jobs == [] then Flowed([], m)
    else
      var before := AdvanceFlows(p, m, jobs[..|jobs| - 1], input);
      var j := jobs[|jobs| - 1];
      var a := FlowAction(p, before.memory, j, input(j));
      if a.None? then before
      else Flowed(before.steps + [Do(a.value), Save], ApplyMemory(p, before.memory, a.value))
  }

  /** One supervisor process: its copy of the session, the checkpoint it owns, and the network behind it. */
  class Supervisor {
    const policy: Policy
    var data: Session
    var lost: set<Alias>
    var send: Send
    var restored: bool
    var turn: Place
    var disk: Session
    var posts: seq<EffectId>
    ghost var answers: map<EffectId, Reply>
    ghost var taken: map<EffectId, Mail>
    ghost const start: World
    ghost var log: seq<Step>

    /** The first start of a session, offline or configured: nothing recorded, nothing lost. */
    constructor Begin(policy: Policy)
      ensures Valid() && this.policy == policy && start == Initial && log == [] && Here() == Initial
    {
      this.policy := policy;
      this.data, this.disk := EmptySession, EmptySession;
      this.lost, this.send, this.restored, this.turn := {}, Idle, true, 0;
      this.posts, this.answers, this.taken := [], map[], map[];
      this.start, this.log := Initial, [];
    }

    /** Opens an offline session again, from whatever the checkpoint holds. */
    constructor Resume(policy: Policy, disk: Session, posts: seq<EffectId>,
                       ghost answers: map<EffectId, Reply>, ghost taken: map<EffectId, Mail>)
      requires policy.offline
      ensures Valid() && this.policy == policy && start == World(None, disk, posts, answers, taken) && log == [Reopen]
      ensures Here() == Apply(policy, World(None, disk, posts, answers, taken), Reopen)
    {
      this.policy := policy;
      this.data := disk.(lifecycle := Starting);
      this.lost := set e | e in disk.effects :: disk.effects[e].target;
      this.send, this.restored, this.turn := Idle, false, 0;
      this.disk, this.posts, this.answers, this.taken := disk, posts, answers, taken;
      this.start, this.log := World(None, disk, posts, answers, taken), [Reopen];
      new;
      assert [Reopen][1..] == [];
      assert Run(policy, Apply(policy, start, Reopen), [], Here());
    }

    ghost function Mem(): Memory
      reads this
    {
      Memory(data, lost, send, restored)
    }

    ghost function Here(): World
      reads this
    {
      World(Some(Mem()), disk, posts, answers, taken)
    }

    ghost predicate Valid()
      reads this
    {
      Run(policy, start, log, Here())
    }

    /** Exactly `steps` were taken since the log was `past`. */
    ghost predicate Took(past: seq<Step>, steps: seq<Step>)
      reads this
    {
      Valid() && log == past + steps
    }

    /** The fields now hold what step `x` makes of `before`. */
    ghost method Note(before: World, x: Step)
      requires Run(policy, start, log, before) && Enabled(policy, before, x) && Here() == Apply(policy, before, x)
      modifies this`log
      ensures Valid() && log == old(log) + [x]
    {
      RunSnoc(policy, start, log, before, x);
      log := log + [x];
    }

    ghost method NoteDo(before: World, a: Action)
      requires Run(policy, start, log, before) && before.memory.Some? && MemoryEnabled(policy, before.memory.value, a)
      requires Here() == before.(memory := Some(ApplyMemory(policy, before.memory.value, a)))
      requires !a.TakeProposal? && !a.TakeResult?
      modifies this`log
      ensures Valid() && log == old(log) + [Do(a)]
    {
      hide Run, MemoryEnabled, ApplyMemory;
      Note(before, Do(a));
    }

    method SaveSession()
      requires Valid()
      modifies this`disk, this`log
      ensures Valid() && disk == data && log == old(log) + [Save]
    {
      hide Run, MemoryEnabled, ApplyMemory;
      ghost var before := Here();
      disk := data;
      Note(before, Save);
    }

    method HaltNow()
      requires Valid()
      modifies this`data, this`disk, this`log
      ensures Valid() && data == Halt(old(data)) && disk == data && log == old(log) + [Do(HaltSession), Save]
    {
      hide Run, NodeAuthorized, EffectAuthorized, AllReady;
      ghost var before := Here();
      data := data.(lifecycle := Halted);
      NoteDo(before, HaltSession);
      SaveSession();
    }

    // ---------------------------------------------------------------- root tasks

    method RootTask(job: JobId, alias: Alias, workload: Workload, authority: Authority,
                    flow: Option<seq<Alias>>, live: bool, enqueued: bool) returns (id: Option<NodeId>)
      requires Valid()
      requires authority.External? ==> ScopeAllowed(policy, authority.scope, workload)
      modifies this`data, this`disk, this`log
      ensures var a := SubmitRoot(job, alias, workload, authority, flow);
        && Took(old(log), RootSteps(policy, old(Mem()), a, live, enqueued))
        && (id.Some? <==> live && enqueued && MemoryEnabled(policy, old(Mem()), a))
      ensures id.Some? ==> id.value == Root(job) && disk == data && id.value in data.nodes
      ensures if live && MemoryEnabled(policy, old(Mem()), SubmitRoot(job, alias, workload, authority, flow))
        then RootEnds(old(data), data, job, alias, workload, authority, flow, enqueued) else data == old(data)
    {
      hide Run, NodeAuthorized, EffectAuthorized, AllReady;
      ghost var before := Here();
      if !live || !data.lifecycle.Active? || data.budgets.tasks >= policy.limits.tasks
         || !WorkloadAllowed(policy, alias, workload) || job in data.jobs
      {
        return None;
      }
      var root := Root(job);
      data := data.(
        jobs := data.jobs[job := Job(authority, [root], JobAccepted, flow)],
        nodes := data.nodes[root := Node(job, alias, workload, None, [], 0, Planned, Local, None, None)],
        budgets := data.budgets.(tasks := data.budgets.tasks + 1));
      NoteDo(before, SubmitRoot(job, alias, workload, authority, flow));
      SaveSession();
      EnqueueRootTask(job, enqueued);
      id := if enqueued then Some(root) else None;
    }

    method EnqueueRootTask(job: JobId, enqueued: bool)
      requires Valid() && Root(job) in data.nodes && data.nodes[Root(job)].compute.Planned? && job in data.jobs
      modifies this`data, this`disk, this`log
      ensures Took(old(log), [Do(EnqueueRoot(job, enqueued)), Save])
      ensures disk == data && data.nodes.Keys == old(data.nodes.Keys)
      ensures var root := Root(job); var v := old(data).nodes[root];
        data == if enqueued then old(data).(nodes := old(data).nodes[root := v.(compute := Accepted, runtimeTask := Some(OwnTask(root)))])
                else old(data).(nodes := old(data).nodes[root := v.(compute := ComputeFailed)],
                                jobs := old(data).jobs[job := old(data).jobs[job].(status := Blocked)])
    {
      hide Run;
      ghost var before := Here();
      var root := Root(job);
      if enqueued {
        data := data.(nodes := data.nodes[root := data.nodes[root].(runtimeTask := Some(OwnTask(root)), compute := Accepted)]);
      } else {
        data := data.(nodes := data.nodes[root := data.nodes[root].(compute := ComputeFailed)],
                      jobs := data.jobs[job := data.jobs[job].(status := Blocked)]);
      }
      NoteDo(before, EnqueueRoot(job, enqueued));
      SaveSession();
    }

    // ----------------------------------------------------------------- one send

    method RecordIntent(nonce: Nonce)
      requires Valid() && MemoryEnabled(policy, Mem(), Intend(nonce))
      modifies this`data, this`send, this`disk, this`log
      ensures Valid() && Mem() == ApplyMemory(policy, old(Mem()), Intend(nonce)) && disk == data
      ensures send.Intended? && send.effect == old(send.effect) && send.effect in data.effects
      ensures data.effects[send.effect].status.Sending? && data.lifecycle.Active? && data.nodes == old(data.nodes)
      ensures EffectAuthorized(policy, data, send.effect, data.effects[send.effect])
      ensures log == old(log) + [Do(Intend(nonce)), Save]
      ensures var id, s := old(send.effect), old(data);
        id in s.effects && data == s.(effects := s.effects[id := s.effects[id].(status := Sending, nonce := Some(nonce))],
                                      budgets := s.budgets.(outbound := s.budgets.outbound + 1))
    {
      IntentKeepsAuthority(policy, Mem(), nonce);
      hide Run, NodeAuthorized, EffectAuthorized, AllReady;
      ghost var before := Here();
      var id := send.effect;
      data := data.(effects := data.effects[id := data.effects[id].(status := Sending, nonce := Some(nonce))],
                    budgets := data.budgets.(outbound := data.budgets.outbound + 1));
      send := Intended(id);
      NoteDo(before, Intend(nonce));
      SaveSession();
    }

    method GiveUpSend(rejected: bool)
      requires Valid() && MemoryEnabled(policy, Mem(), NoReceipt(rejected))
      modifies this`data, this`send, this`disk, this`log
      ensures Valid() && Mem() == ApplyMemory(policy, old(Mem()), NoReceipt(rejected)) && disk == data
      ensures log == old(log) + [Do(NoReceipt(rejected)), Save]
    {
      hide Run, NodeAuthorized, EffectAuthorized, AllReady;
      ghost var before := Here();
      var id := send.effect;
      data := data.(effects := data.effects[id := data.effects[id].(status := if rejected then Failed else Ambiguous)],
                    lifecycle := Halted);
      send := Preparing(id);
      NoteDo(before, NoReceipt(rejected));
      SaveSession();
    }

    method BindReceipt(seqNo: nat, saved: bool)
      requires Valid() && MemoryEnabled(policy, Mem(), Receipt(seqNo))
      modifies this`data, this`send, this`disk, this`log
      ensures Valid() && disk == data && !send.Idle? && send.effect == old(send.effect) && data.nodes == old(data.nodes)
      ensures data.effects.Keys == old(data.effects.Keys)
      ensures saved ==> send.Landed? && data.effects[send.effect].status.Sent?
      ensures SettleEnds(old(data), data, old(send.effect), true, Posted(seqNo), saved)
      ensures log == old(log) + [Do(Receipt(seqNo)), Save] + if saved then [] else [Do(DoubtReceipt), Save]
    {
      hide Run, NodeAuthorized, EffectAuthorized, AllReady;
      ghost var before := Here();
      var id := send.effect;
      data := data.(effects := data.effects[id := data.effects[id].(seqNo := Some(seqNo), status := Sent)]);
      send := Landed(id);
      NoteDo(before, Receipt(seqNo));
      SaveSession();
      if !saved {
        DoubtNow();
      }
    }

    method DoubtNow()
      requires Valid() && MemoryEnabled(policy, Mem(), DoubtReceipt)
      modifies this`data, this`send, this`disk, this`log
      ensures Valid() && disk == data && send == Preparing(old(send.effect)) && data.nodes == old(data.nodes)
      ensures data.effects.Keys == old(data.effects.Keys)
      ensures log == old(log) + [Do(DoubtReceipt), Save]
      ensures var id := old(send.effect);
        data == Halt(SetEffect(old(data), id, old(data).effects[id].(status := Ambiguous)))
    {
      hide Run;
      ghost var before := Here();
      var id := send.effect;
      data := data.(effects := data.effects[id := data.effects[id].(status := Ambiguous)], lifecycle := Halted);
      send := Preparing(id);
      NoteDo(before, DoubtReceipt);
      SaveSession();
    }

    /** The second authority check, the one post, and what the reply makes of the effect. */
    method PostAndSettle(c: Course) returns (delivered: bool)
      requires Valid() && send.Intended? && send.effect in data.effects && data.effects[send.effect].status.Sending?
      requires disk == data && data.lifecycle.Active?
      requires EffectAuthorized(policy, data, send.effect, data.effects[send.effect])
      modifies this`data, this`send, this`disk, this`posts, this`answers, this`log
      ensures Took(old(log), SettleSteps(c))
      ensures SettleEnds(old(data), data, old(send.effect), c.liveAtPost, c.reply, c.receiptSaved)
      ensures delivered <==> c.liveAtPost && c.reply.Posted? && c.receiptSaved
      ensures posts == if c.liveAtPost then old(posts) + [old(send.effect)] else old(posts)
      ensures !send.Idle? && send.effect == old(send.effect) && send.effect in data.effects && data.nodes == old(data.nodes)
      ensures delivered ==> send.Landed? && data.effects[send.effect].status.Sent?
    {
      hide Run, EffectAuthorized;
      if !c.liveAtPost || !data.lifecycle.Active? || !EffectAuthorized(policy, data, send.effect, data.effects[send.effect]) {
        GiveUpSend(false);
        return false;
      }
      PostNow(c.reply);
      delivered := SettleReply(c.reply, c.receiptSaved);
    }

    method SettleReply(reply: Reply, receiptSaved: bool) returns (delivered: bool)
      requires Valid() && send.InFlight? && send.reply == reply && send.effect in data.effects
      requires data.effects[send.effect].status.Sending?
      modifies this`data, this`send, this`disk, this`log
      ensures Took(old(log), ReplySteps(reply, receiptSaved))
      ensures SettleEnds(old(data), data, old(send.effect), true, reply, receiptSaved)
      ensures delivered <==> reply.Posted? && receiptSaved
      ensures !send.Idle? && send.effect == old(send.effect) && send.effect in data.effects && data.nodes == old(data.nodes)
      ensures delivered ==> send.Landed? && data.effects[send.effect].status.Sent?
    {
      hide Run;
      match reply
      case Posted(n) =>
        BindReceipt(n, receiptSaved);
        delivered := receiptSaved;
      case RejectedPost =>
        GiveUpSend(true);
        delivered := false;
      case NoReply =>
        GiveUpSend(false);
        delivered := false;
    }

    /** `reply` is what the transport will make of it. */
    method PostNow(reply: Reply)
      requires Valid() && Enabled(policy, Here(), Post(reply))
      modifies this`send, this`posts, this`answers, this`log
      ensures Valid() && send == InFlight(old(send.effect), reply) && posts == old(posts) + [old(send.effect)]
      ensures log == old(log) + [Post(reply)]
    {
      hide Run, EffectAuthorized, MemoryEnabled, ApplyMemory;
      ghost var before := Here();
      posts := posts + [send.effect];
      answers := answers[send.effect := reply];
      send := InFlight(send.effect, reply);
      Note(before, Post(reply));
    }

    function CanIntend(nonce: Nonce): (ok: bool)
      requires send.Preparing? && send.effect in data.effects
      reads this
      ensures ok <==> MemoryEnabled(policy, Mem(), Intend(nonce))
    {
      && data.lifecycle.Active? && data.effects[send.effect].status.Prepared?
      && data.budgets.outbound < policy.limits.outbound
      && EffectAuthorized(policy, data, send.effect, data.effects[send.effect])
    }

    /** Hands one prepared effect to the transport, behind a saved intent and a second authority check. */
    method Dispatch(c: Course) returns (delivered: bool)
      requires Valid() && send.Preparing? && send.effect in data.effects
      modifies this`data, this`send, this`disk, this`posts, this`answers, this`log
      ensures Took(old(log), DispatchSteps(policy, old(Mem()), c))
      ensures DispatchEnds(policy, old(Mem()), data, c)
      ensures delivered <==> Delivers(policy, old(Mem()), c)
      ensures posts == if Posts(policy, old(Mem()), c) then old(posts) + [old(send.effect)] else old(posts)
      ensures !send.Idle? && send.effect == old(send.effect) && send.effect in data.effects && data.nodes == old(data.nodes)
      ensures delivered ==> send.Landed? && data.effects[send.effect].status.Sent?
    {
      hide Run, EffectAuthorized, MemoryEnabled, ApplyMemory, SettleSteps;
      if !c.liveAtIntent || !CanIntend(c.nonce) {
        assert log + [] == log;
        return false;
      }
      ghost var past := log;
      RecordIntent(c.nonce);
      delivered := PostAndSettle(c);
      assert log == past + ([Do(Intend(c.nonce)), Save] + SettleSteps(c));
    }

    method EndSendNow(fate: SendFate)
      requires Valid() && MemoryEnabled(policy, Mem(), EndSend(fate))
      modifies this`data, this`send, this`log
      ensures Valid() && send.Idle? && log == old(log) + [Do(EndSend(fate))]
      ensures TaskEnds(old(data), data, old(send.effect), fate)
    {
      hide Run, AllReady;
      ghost var before := Here();
      var id := send.effect;
      match fate {
        case SendSucceeded =>
          if id.kind.Result? {
            data := data.(nodes := data.nodes[id.node := data.nodes[id.node].(delivery := ResultSent)]);
          }
        case SendUnsuccessful =>
          if data.effects[id].status.Prepared? {
            data := data.(effects := data.effects[id := data.effects[id].(status := Failed)]);
          }
          data := data.(lifecycle := Halted);
        case SendThrew =>
      }
      send := Idle;
      NoteDo(before, EndSend(fate));
    }

    method RefuseLost(id: EffectId)
      requires Valid() && Sendable(data, id) && NewEffect(data, id).target in lost
      modifies this`data, this`disk, this`log
      ensures Took(old(log), [Do(RefuseSend(id)), Save])
      ensures var v := old(data).nodes[id.node];
        data == old(data).(nodes := old(data).nodes[id.node := v.(delivery := NeedsOperator)],
                           jobs := old(data).jobs[v.job := old(data).jobs[v.job].(status := Blocked)])
    {
      hide Run, AllReady;
      ghost var before := Here();
      var job := data.nodes[id.node].job;
      data := data.(nodes := data.nodes[id.node := data.nodes[id.node].(delivery := NeedsOperator)],
                    jobs := data.jobs[job := data.jobs[job].(status := Blocked)]);
      NoteDo(before, RefuseSend(id));
      SaveSession();
    }

    method PrepareNow(id: EffectId)
      requires Valid() && MemoryEnabled(policy, Mem(), Prepare(id))
      modifies this`data, this`send, this`disk, this`log
      ensures Valid() && Mem() == ApplyMemory(policy, old(Mem()), Prepare(id)) && disk == data
      ensures log == old(log) + [Do(Prepare(id)), Save]
    {
      hide Run, AllReady, NodeAuthorized;
      ghost var before := Here();
      data := data.(effects := data.effects[id := NewEffect(data, id)]);
      send := Preparing(id);
      NoteDo(before, Prepare(id));
      SaveSession();
    }

    /** Prepares, sends and settles one effect; `threw` asks the caller to halt. */
    method SendEffect(id: EffectId, live: bool, c: Course) returns (threw: bool)
      requires Valid() && Sendable(data, id) && send.Idle?
      modifies this`data, this`send, this`disk, this`posts, this`answers, this`log
      ensures Took(old(log), SendSteps(policy, old(Mem()), id, live, c))
      ensures threw <==> SendThrows(policy, old(Mem()), id, live, c)
      ensures old(id in data.effects) ==> posts == old(posts)
      ensures posts == old(posts) || posts == old(posts) + [id]
      ensures EffectEnds(policy, old(Mem()), data, id, live, c)
    {
      hide Run, AllReady, EffectAuthorized, DispatchSteps, EndFate, SendEnds;
      if NewEffect(data, id).target in lost {
        RefuseLost(id);
        return false;
      }
      if !live || !CanPrepare(id) {
        assert log + [] == log;
        return true;
      }
      PrepareNow(id);
      assert Mem() == PreparedFor(old(Mem()), id);
      threw := FinishSend(c);
    }

    function CanPrepare(id: EffectId): (ok: bool)
      requires Sendable(data, id) && NewEffect(data, id).target !in lost && send.Idle?
      reads this
      ensures ok <==> MemoryEnabled(policy, Mem(), Prepare(id))
    {
      && data.lifecycle.Active? && id !in data.effects && data.budgets.outbound < policy.limits.outbound
      && EffectAuthorized(policy, data, id, NewEffect(data, id))
    }

    method FinishSend(c: Course) returns (threw: bool)
      requires Valid() && send.Preparing? && send.effect in data.effects && send.effect.node in data.nodes
      modifies this`data, this`send, this`disk, this`posts, this`answers, this`log
      ensures Took(old(log), (if c.reachesDispatch then DispatchSteps(policy, old(Mem()), c) else [])
        + [Do(EndSend(EndFate(policy, old(Mem()), c)))]
        + (if EndFate(policy, old(Mem()), c).SendThrew? then [] else [Save]))
      ensures threw <==> EndFate(policy, old(Mem()), c).SendThrew?
      ensures posts == old(posts) || posts == old(posts) + [old(send.effect)]
      ensures exists mid :: SendEnds(policy, old(Mem()), mid, data, c)
    {
      hide Run, EffectAuthorized, DispatchSteps, Delivers, Posts, ApplyMemory;
      var delivered := false;
      if c.reachesDispatch {
        delivered := Dispatch(c);
      }
      ghost var mid := data;
      var fate := if delivered && c.taskSucceeds then SendSucceeded else if c.throws then SendThrew else SendUnsuccessful;
      EndSendNow(fate);
      assert SendEnds(policy, old(Mem()), mid, data, c);
      threw := fate.SendThrew?;
      if !threw {
        SaveSession();
      }
    }

    // ----------------------------------------------------------------- receiving

    method MarkReceiving(alias: Alias) returns (expected: set<EffectId>)
      requires Valid() && data.lifecycle.Active? && send.Idle?
      modifies this`data, this`disk, this`log
      ensures Mem() == ApplyMemory(policy, old(Mem()), StartReceive(alias)) && expected == SentTo(old(data), alias)
      ensures Took(old(log), [Do(StartReceive(alias)), Save])
      ensures Awaited(data, expected)
    {
      hide Run, SentTo, BeginReceive, ApplyMemory, MemoryEnabled, Awaited;
      ghost var before := Here();
      expected := SentTo(data, alias);
      MarkedIsBegun(policy, Mem(), alias);
      var effects := Marked(data.effects, expected, Receiving);
      data := data.(effects := effects);
      NoteDo(before, StartReceive(alias));
      SaveSession();
    }

    method LoseExpected(expected: set<EffectId>)
      requires Valid() && Awaited(data, expected)
      modifies this`data, this`disk, this`log
      ensures Took(old(log), LoseSteps(expected))
      ensures data == Halt(Doubt(old(data), expected)) && disk == data
    {
      hide Run;
      ghost var before := Here();
      var effects := Marked(data.effects, expected, Ambiguous);
      data := data.(effects := effects, lifecycle := Halted);
      assert data == Halt(Doubt(old(data), expected));
      NoteDo(before, LoseReceive(expected));
      SaveSession();
    }

    method TakeMessage(alias: Alias, msg: Message) returns (ok: bool)
      requires Valid()
      modifies this`data, this`taken, this`log
      ensures ok <==> MessageOk(policy, old(Mem()), alias, msg)
      ensures var a := MessageAction(policy, old(Mem()), alias, msg);
        && Took(old(log), if a.None? then [] else [Do(a.value)])
        && Mem() == if a.None? then old(Mem()) else ApplyMemory(policy, old(Mem()), a.value)
    {
      hide Run, EffectAuthorized, TextFor;
      ghost var before := Here();
      ok := true;
      match msg {
        case FromPeer(_, text, _, _, verified, usable, record) =>
          if !verified {
            data := data.(intakes := data.intakes[record := RejectedIntake]);
            NoteDo(before, RecordIntake(record, RejectedIntake));
            ok := false;
          } else if Takes(policy, Memory(data, lost, send, restored), alias, msg) {
            TakeEffect(EffectOfText(text), MailOf(alias, msg));
          } else {
            ok := false;
          }
        case Outside(record, offer) =>
          if offer.None? {
            data := data.(intakes := data.intakes[record := RejectedIntake]);
            NoteDo(before, RecordIntake(record, RejectedIntake));
          } else {
            RecordOffer(record, offer.value);
          }
      }
    }

    method TakeEffect(id: EffectId, mail: Mail)
      requires Valid() && MemoryEnabled(policy, Mem(), TakeAction(id, mail))
      modifies this`data, this`taken, this`log
      ensures Took(old(log), [Do(TakeAction(id, mail))]) && Mem() == ApplyMemory(policy, old(Mem()), TakeAction(id, mail))
    {
      hide Run, EffectAuthorized, TextFor, IsMail;
      AuthorizedHasNode(policy, data, id, data.effects[id]);
      ghost var before := Here();
      var node := data.nodes[id.node];
      if id.kind.Proposal? {
        data := data.(nodes := data.nodes[id.node := node.(runtimeTask := Some(RuntimeTaskOf(id.node)), compute := Accepted)],
                      intakes := data.intakes[OfEffect(id) := Intake(IntakeAccepted, node.workload, "", Some(node.job))]);
      } else {
        data := data.(nodes := data.nodes[id.node := node.(delivery := Delivered)]);
      }
      data := data.(effects := data.effects[id := data.effects[id].(status := Received)]);
      taken := taken[id := mail];
      Note(before, Do(TakeAction(id, mail)));
    }

    method RecordOffer(record: IntakeKey, offer: Offer)
      requires Valid()
      modifies this`data, this`log
      ensures var a := OfferAction(old(data), record, offer);
        && Took(old(log), if a.None? then [] else [Do(a.value)])
        && Mem() == if a.None? then old(Mem()) else ApplyMemory(policy, old(Mem()), a.value)
    {
      hide Run;
      ghost var before := Here();
      if offer.key !in data.intakes {
        var intake := Intake(if offer.waiting then IntakeWaiting else IntakeRejected, offer.workload, offer.hash, None);
        data := data.(intakes := data.intakes[offer.key := intake]);
        NoteDo(before, RecordIntake(offer.key, intake));
      } else if data.intakes[offer.key].hash != offer.hash {
        var prior := data.intakes[offer.key];
        data := data.(intakes := data.intakes[offer.key := prior.(status := IntakeRejected)][record := RejectedIntake]);
        if prior.job.Some? && prior.job.value in data.jobs {
          data := data.(jobs := data.jobs[prior.job.value := data.jobs[prior.job.value].(status := Blocked)]);
        }
        NoteDo(before, ContradictIntake(offer.key, record));
      } else {
        assert log + [] == log;
      }
    }

    /** One GET, its messages in order, then the check that nothing expected is missing. */
    method ReceiveOwned(alias: Alias, inbox: Inbox) returns (threw: bool)
      requires Valid() && send.Idle?
      modifies this`data, this`disk, this`taken, this`log
      ensures Took(old(log), ReceiveSteps(policy, old(Mem()), alias, inbox))
      ensures threw <==> !inbox.live || !old(data).lifecycle.Active?
      ensures threw ==> data == old(data)
      ensures !threw ==> ReadEnds(data, SentTo(old(data), alias), ReadsWhole(policy, old(Mem()), alias, inbox), Active)
      ensures !threw && ReadsWhole(policy, old(Mem()), alias, inbox) ==>
        data == CompleteJobs(Reading(policy, old(Mem()), alias, inbox).memory.data)
    {
      hide Run, ApplyMemory, MemoryEnabled, Awaited, SentTo, ReadEnds, AllReceived, CompleteJobs, Classify;
      if !inbox.live || !data.lifecycle.Active? {
        assert log + [] == log;
        return true;
      }
      var expected := MarkReceiving(alias);
      threw := false;
      ghost var past, m := log, Mem();
      StillActive(policy, old(Mem()), alias);
      DoubtedIsRead(data, expected);
      if !inbox.liveAtRead || data.budgets.gets >= policy.limits.gets {
        LoseExpected(expected);
        assert ReadEnds(data, expected, false, Active);
        return;
      }
      SpendRead();
      if !inbox.fetched {
        SameEffectsAwaited(m.data, data, expected);
        DoubtedIsRead(data, expected);
        LoseExpected(expected);
        assert ReadEnds(data, expected, false, Active);
        return;
      }
      SaveSession();
      SameEffectsAwaited(m.data, data, expected);
      ReceiveMessages(alias, expected, inbox);
    }

    method SpendRead()
      requires Valid() && MemoryEnabled(policy, Mem(), SpendGet)
      modifies this`data, this`disk, this`log
      ensures Took(old(log), [Do(SpendGet), Save])
      ensures Mem() == ApplyMemory(policy, old(Mem()), SpendGet) && data.effects == old(data).effects && disk == data
      ensures data == old(data).(budgets := data.budgets)
    {
      hide Run;
      ghost var before := Here();
      data := data.(budgets := data.budgets.(gets := data.budgets.gets + 1));
      NoteDo(before, SpendGet);
      SaveSession();
    }

    method ReadMessages(alias: Alias, messages: seq<Message>) returns (ok: bool)
      requires Valid()
      modifies this`data, this`taken, this`log
      ensures var c := Classify(policy, old(Mem()), alias, messages);
        Took(old(log), c.steps) && Mem() == c.memory && ok == c.ok
    {
      hide Run, ApplyMemory, MemoryEnabled, MessageAction, MessageOk;
      ghost var past, m := log, Mem();
      ok := true;
      var k := 0;
      while ok && k < |messages|
        invariant 0 <= k <= |messages| && Valid()
        invariant var c := Classify(policy, m, alias, messages[..k]);
          log == past + c.steps && Mem() == c.memory && ok == c.ok
      {
        assert messages[..k + 1][..k] == messages[..k];
        ok := TakeMessage(alias, messages[k]);
        k := k + 1;
      }
      FailureEndsIt(policy, m, alias, messages, k);
    }

    method ReceiveMessages(alias: Alias, expected: set<EffectId>, inbox: Inbox)
      requires Valid() && Awaited(data, expected)
      modifies this`data, this`disk, this`taken, this`log
      ensures Took(old(log), MessageSteps(Classify(policy, old(Mem()), alias, inbox.messages), expected, inbox))
      ensures var c := Classify(policy, old(Mem()), alias, inbox.messages);
        && ReadEnds(data, expected, c.ok && AllReceived(c.memory.data, expected) && inbox.acknowledged, old(data).lifecycle)
        && (c.ok && AllReceived(c.memory.data, expected) && inbox.acknowledged ==> data == CompleteJobs(c.memory.data))
    {
      hide Run, Classify, Awaited, AllReceived, CompleteJobs, ReadEnds;
      ClassifyKeepsAwaited(policy, Mem(), alias, inbox.messages, expected);
      ClassifyKeepsLifecycle(policy, Mem(), alias, inbox.messages);
      var ok := ReadMessages(alias, inbox.messages);
      DoubtedIsRead(data, expected);
      CompletedIsRead(data, expected);
      if !ok || !AllReceived(data, expected) {
        LoseExpected(expected);
        return;
      }
      SaveSession();
      if inbox.acknowledged {
        CompleteAll();
        SaveSession();
      } else {
        LoseExpected(expected);
      }
    }

    method CompleteAll()
      requires Valid()
      modifies this`data, this`log
      ensures Valid() && data == CompleteJobs(old(data)) && log == old(log) + [Do(Complete)]
    {
      hide Run, CompleteJobs;
      ghost var before := Here();
      var t := SessionReopen.FinishJobs(data);
      data := t;
      NoteDo(before, Complete);
    }

    method RestoreOfflineTasks(fates: map<NodeId, Fate>)
      requires Valid() && data.lifecycle.Starting? && !restored && SessionReopen.WellLinked(data)
      modifies this`data, this`restored, this`disk, this`log
      ensures Took(old(log), [Do(RestoreTasks(fates)), Save]) && data == Restore(old(data), fates) && restored
    {
      hide Run, Restore, SessionReopen.WellLinked;
      ghost var before := Here();
      var t := SessionReopen.RestoreSession(data, fates);
      data, restored := t, true;
      NoteDo(before, RestoreTasks(fates));
      SaveSession();
    }

    method ActivateNow()
      requires Valid() && data.lifecycle.Starting? && restored
      modifies this`data, this`disk, this`log
      ensures Took(old(log), [Do(Activate), Save]) && data == old(data).(lifecycle := Active)
    {
      hide Run;
      ghost var before := Here();
      data := data.(lifecycle := Active);
      NoteDo(before, Activate);
      SaveSession();
    }

    /** Whatever was half sent or half received when the session stops is ambiguous from then on. */
    method StopSession()
      requires Valid()
      modifies this`data, this`disk, this`log
      ensures Took(old(log), [Do(Stop), Save] + if old(data).lifecycle.Halted? then [Save] else [Do(Close), Save])
      ensures disk == data && Unsettled(data) == {} && (data.lifecycle.Stopped? || data.lifecycle.Halted?)
      ensures data == old(data).(effects := data.effects, lifecycle := data.lifecycle) && data.effects.Keys == old(data).effects.Keys
      ensures data.lifecycle.Halted? <==> old(data).lifecycle.Halted?
      ensures forall e | e in data.effects :: StopsAs(old(data).effects[e], data.effects[e])
    {
      hide Run, Unsettled;
      StopNow();
      SaveSession();
      if !data.lifecycle.Halted? {
        ghost var before := Here();
        data := data.(lifecycle := Stopped);
        NoteDo(before, Close);
        SettledStays(before.memory.value.data, data);
      }
      SaveSession();
    }

    method StopNow()
      requires Valid()
      modifies this`data, this`log
      ensures Took(old(log), [Do(Stop)]) && Unsettled(data) == {}
      ensures data == old(data).(effects := data.effects, lifecycle := data.lifecycle) && data.effects.Keys == old(data).effects.Keys
      ensures forall e | e in data.effects :: StopsAs(old(data).effects[e], data.effects[e])
      ensures data.lifecycle == if old(data).lifecycle.Halted? then Halted else Stopping
    {
      hide Run, MemoryEnabled, ApplyMemory, Unsettled, Doubt, StopsAs;
      ghost var before := Here();
      UnsettledAre(data);
      StopDoubts(policy, Mem());
      var effects := Marked(data.effects, Unsettled(data), Ambiguous);
      data := data.(effects := effects, lifecycle := if data.lifecycle.Halted? then Halted else Stopping);
      NoteDo(before, Stop);
    }

    /** Adds a child node under an accepted one; the same request again only names the node it made. */
    method DelegateOwned(parent: NodeId, target: Alias, workload: Workload, payload: Hash, dependencies: seq<NodeId>, live: bool)
      returns (r: Option<NodeId>)
      requires Valid()
      modifies this`data, this`disk, this`log
      ensures Took(old(log), DelegateSteps(policy, old(Mem()), Delegate(parent, target, workload, payload, dependencies), live))
      ensures r.Some? ==> r.value == Child(parent, target, workload, payload, dependencies) && r.value in data.nodes
      ensures var id := Child(parent, target, workload, payload, dependencies);
        if r.Some? && id !in old(data).nodes then
          ChildEnds(old(data), data, parent, target, workload, payload, dependencies)
        else data == old(data)
      ensures var a := Delegate(parent, target, workload, payload, dependencies);
        Mem() == if live && MemoryEnabled(policy, old(Mem()), a) then ApplyMemory(policy, old(Mem()), a) else old(Mem())
      ensures var a := Delegate(parent, target, workload, payload, dependencies);
        r.Some? <==> (DelegateAnswers(policy, old(data), a, live) && DelegateId(a) in old(data).nodes) || (live && MemoryEnabled(policy, old(Mem()), a))
    {
      hide Run, NodeAuthorized, Distinct;
      var id := Child(parent, target, workload, payload, dependencies);
      assert log + [] == log;
      if !live || !data.lifecycle.Active? || data.budgets.tasks >= policy.limits.tasks
         || parent !in data.nodes || data.nodes[parent].alias == target || parent !in dependencies
         || exists d | d in dependencies :: d !in data.nodes || data.nodes[d].job != data.nodes[parent].job
      {
        return None;
      }
      if id in data.nodes {
        return Some(id);
      }
      if !DelegateEnabled(policy, data, parent, target, workload, dependencies) {
        return None;
      }
      ghost var before := Here();
      var node := ChildNode(data, parent, target, workload, dependencies);
      var job := data.jobs[node.job];
      data := data.(nodes := data.nodes[id := node],
                    jobs := data.jobs[node.job := job.(tasks := job.tasks + [id], status := JobRunning)],
                    budgets := data.budgets.(tasks := data.budgets.tasks + 1));
      NoteDo(before, Delegate(parent, target, workload, payload, dependencies));
      SaveSession();
      r := Some(id);
    }

    /** Runs an accepted node's task in its peer's runtime; `threw` asks the caller to halt. */
    method RunNode(id: NodeId, live: bool, outcome: Option<Fate>) returns (threw: bool)
      requires Valid() && Runnable(data, id)
      modifies this`data, this`disk, this`log
      ensures Took(old(log), ComputeSteps(policy, old(Mem()), id, live, outcome))
      ensures threw <==> outcome.None? || !live || !MemoryEnabled(policy, old(Mem()), StartCompute(id))
      ensures RunEnds(policy, old(Mem()), data, id, live, outcome)
    {
      hide Run, NodeAuthorized;
      if !live || !data.lifecycle.Active? || data.budgets.inference >= policy.limits.inference
         || !NodeAuthorized(policy, data, data.nodes[id])
      {
        assert log + [] == log;
        return true;
      }
      ghost var before := Here();
      data := data.(nodes := data.nodes[id := data.nodes[id].(compute := Running)]);
      NoteDo(before, StartCompute(id));
      SaveSession();
      threw := outcome.None?;
      if outcome.Some? {
        FinishNode(id, outcome.value);
      }
    }

    method FinishNode(id: NodeId, outcome: Fate)
      requires Valid() && id in data.nodes && data.nodes[id].compute.Running? && data.nodes[id].job in data.jobs
      modifies this`data, this`disk, this`log
      ensures Took(old(log), [Do(FinishCompute(id, outcome)), Save])
      ensures ComputeEnds(old(data), data, id, outcome)
    {
      hide Run;
      ghost var before := Here();
      var node := data.nodes[id];
      if outcome.Succeeded? {
        data := data.(nodes := data.nodes[id := node.(evidence := Some(outcome.result), compute := ResultReady)]);
      } else {
        data := data.(nodes := data.nodes[id := node.(compute := if outcome.TaskFailed? then ComputeFailed else ComputeAmbiguous)],
                      jobs := data.jobs[node.job := data.jobs[node.job].(status := Blocked)]);
      }
      NoteDo(before, FinishCompute(id, outcome));
      SaveSession();
    }

    // ---------------------------------------------------------------- scheduling

    /** The scan over the five peers, starting at `turn`. */
    method Pick(due: set<Alias>) returns (choice: Choice)
      ensures Chosen(data, due, turn, choice)
    {
      hide Incoming, Eligible;
      for offset := 0 to 5
        invariant forall b | Distance(turn, b) < offset :: !HasWork(data, due, b)
      {
        var alias := AliasAt(Around(turn, offset));
        DistanceOf(turn, offset);
        if Incoming(data, alias) {
          return Read(alias);
        }
        if id :| id in data.nodes && Eligible(data, alias, id) {
          EligibleIsOwn(data, alias, id);
          return Advance(id);
        }
        if alias in due {
          return Read(alias);
        }
      }
      choice := Nothing;
    }

    method AdvanceNode(id: NodeId, live: bool, c: Course, outcome: Option<Fate>) returns (threw: bool)
      requires Valid() && send.Idle? && id in data.nodes
      modifies this`data, this`send, this`disk, this`posts, this`answers, this`log
      ensures Took(old(log), NodeSteps(policy, old(Mem()), id, live, c, outcome))
      ensures threw <==> NodeThrows(policy, old(Mem()), id, live, c, outcome)
      ensures NodeEnds(policy, old(Mem()), data, id, live, c, outcome)
    {
      hide Run, NodeAuthorized, Runnable, Sendable, MemoryEnabled, ApplyMemory, ComputeSteps, SendSteps, SendThrows, RunEnds, EffectEnds;
      assert log + [] == log;
      if !live || !NodeAuthorized(policy, data, data.nodes[id]) {
        return true;
      }
      if Runnable(data, id) {
        threw := RunNode(id, live, outcome);
      } else if Sendable(data, NextEffect(data, id)) {
        threw := SendEffect(NextEffect(data, id), live, c);
      } else {
        threw := true;
      }
    }

    /** One scheduling step: flows first, then one piece of work for the first peer in turn that has any. */
    method Step(due: set<Alias>, live: bool, jobs: seq<JobId>, input: JobId -> FlowInput, inbox: Inbox, c: Course,
                outcome: Option<Fate>) returns (choice: Choice, ghost flowed: Flowed)
      requires Valid() && send.Idle?
      modifies this
      ensures flowed == if live && old(data).lifecycle.Active? then AdvanceFlows(policy, old(Mem()), jobs, input) else Flowed([], old(Mem()))
      ensures live && old(data).lifecycle.Active? ==> Chosen(flowed.memory.data, due, old(turn), choice)
      ensures !live || !old(data).lifecycle.Active? ==> choice.Nothing?
      ensures turn == if choice.Nothing? then old(turn) else Around(PlaceOf(Chooser(flowed.memory.data, choice)), 1)
      ensures flowed.memory.send.Idle? && (choice.Advance? ==> choice.node in flowed.memory.data.nodes)
      ensures Took(old(log), flowed.steps + ServeSteps(policy, flowed.memory, choice, live, inbox, c, outcome))
      ensures ServeEnds(policy, flowed.memory, data, choice, live, inbox, c, outcome)
    {
      hide Run, AdvanceFlows, Chosen, ServeSteps, ServeEnds;
      choice, flowed := Nothing, Flowed([], Mem());
      if !live || !data.lifecycle.Active? {
        Serve(choice, live, inbox, c, outcome);
        return;
      }
      flowed := AdvanceOperatorFlows(jobs, input);
      choice := Pick(due);
      ChosenExists(data, due, turn, choice);
      Serve(choice, live, inbox, c, outcome);
    }

    method Serve(choice: Choice, live: bool, inbox: Inbox, c: Course, outcome: Option<Fate>)
      requires Valid() && send.Idle? && (choice.Advance? ==> choice.node in data.nodes)
      modifies this
      ensures turn == if choice.Nothing? then old(turn) else Around(PlaceOf(Chooser(old(data), choice)), 1)
      ensures Took(old(log), ServeSteps(policy, old(Mem()), choice, live, inbox, c, outcome))
      ensures ServeEnds(policy, old(Mem()), data, choice, live, inbox, c, outcome)
    {
      hide Run, NodeSteps, NodeThrows, ReceiveSteps, NodeEnds, ReadEnds, ReadsWhole, Reading, CompleteJobs, SentTo;
      match choice
      case Nothing =>
        assert log + [] == log;
      case Read(alias) =>
        turn := Around(PlaceOf(alias), 1);
        var threw := ReceiveOwned(alias, inbox);
        if threw {
          HaltNow();
        }
      case Advance(id) =>
        turn := Around(PlaceOf(data.nodes[id].alias), 1);
        var threw := AdvanceNode(id, live, c, outcome);
        ghost var mid := data;
        assert NodeEnds(policy, old(Mem()), mid, id, live, c, outcome);
        if threw {
          HaltNow();
        } else {
          CompleteAll();
          SaveSession();
        }
    }

    method AdvanceOperatorFlows(jobs: seq<JobId>, input: JobId -> FlowInput) returns (ghost flowed: Flowed)
      requires Valid() && send.Idle?
      modifies this`data, this`disk, this`log
      ensures flowed == AdvanceFlows(policy, old(Mem()), jobs, input)
      ensures Took(old(log), flowed.steps) && Mem() == flowed.memory && send.Idle?
    {
      hide Run, FlowAction, ApplyMemory, MemoryEnabled;
      ghost var past, m := log, Mem();
      flowed := Flowed([], m);
      for k := 0 to |jobs|
        invariant flowed == AdvanceFlows(policy, m, jobs[..k], input)
        invariant Valid() && log == past + flowed.steps && Mem() == flowed.memory && send.Idle?
      {
        assert jobs[..k + 1][..k] == jobs[..k];
        AdvanceFlow(jobs[k], input(jobs[k]));
        flowed := AdvanceFlows(policy, m, jobs[..k + 1], input);
      }
      assert jobs[..|jobs|] == jobs;
    }

    method AdvanceFlow(j: JobId, input: FlowInput)
      requires Valid() && send.Idle?
      modifies this`data, this`disk, this`log
      ensures var a := FlowAction(policy, old(Mem()), j, input);
        && Took(old(log), if a.None? then [] else [Do(a.value), Save])
        && Mem() == (if a.None? then old(Mem()) else ApplyMemory(policy, old(Mem()), a.value))
    {
      hide Run, DelegateAnswers, DelegateEnabled;
      assert log + [] == log;
      if FlowWaits(data, j) {
        return;
      }
      var job := data.jobs[j];
      var parent := job.tasks[|job.tasks| - 1];
      var node := data.nodes[parent];
      if node.compute.ComputeFailed? || node.compute.ComputeAmbiguous? || node.delivery.NeedsOperator? {
        BlockNow(j);
        return;
      }
      if !Ready(data, parent) {
        return;
      }
      var target := job.flow.value[|job.tasks|];
      if input.payload.None? {
        BlockNow(j);
        return;
      }
      var made := DelegateOwned(parent, target, FlowWorkload(target), input.payload.value, [parent], input.live);
      if made.None? {
        BlockNow(j);
      }
    }

    method BlockNow(j: JobId)
      requires Valid() && j in data.jobs
      modifies this`data, this`disk, this`log
      ensures Took(old(log), [Do(Block(j)), Save]) && Mem() == ApplyMemory(policy, old(Mem()), Block(j))
    {
      hide Run;
      ghost var before := Here();
      data := data.(jobs := data.jobs[j := data.jobs[j].(status := Blocked)]);
      NoteDo(before, Block(j));
      SaveSession();
    }
  }

  lemma DistanceOf(turn: Place, offset: Place)
    ensures Distance(turn, AliasAt(Around(turn, offset))) == offset
    ensures forall b :: Distance(turn, b) == offset ==> b == AliasAt(Around(turn, offset))
  {
  }

  lemma EligibleIsOwn(s: Session, alias: Alias, id: NodeId)
    requires Eligible(s, alias, id)
    ensures id in s.nodes && s.nodes[id].alias == alias
  {
    hide AllReady;
  }

  lemma ChosenExists(s: Session, due: set<Alias>, turn: Place, choice: Choice)
    requires Chosen(s, due, turn, choice)
    ensures choice.Advance? ==> choice.node in s.nodes
  {
  }

  lemma UnsettledAre(s: Session)
    ensures Unsettled(s) <= s.effects.Keys
  {
  }

  lemma StopDoubts(p: Policy, m: Memory)
    ensures var s := m.data;
      var effects := map e | e in s.effects ::
        if e in Unsettled(s) && !s.effects[e].status.Received? then s.effects[e].(status := Ambiguous) else s.effects[e];
      var t := s.(effects := effects, lifecycle := if s.lifecycle.Halted? then Halted else Stopping);
      && MemoryEnabled(p, m, Stop) && ApplyMemory(p, m, Stop) == m.(data := t)
      && Unsettled(t) == {} && forall e | e in t.effects :: StopsAs(s.effects[e], t.effects[e])
  {
  }

  lemma SettledStays(s: Session, t: Session)
    requires t.effects == s.effects
    ensures Unsettled(t) == Unsettled(s)
  {
  }

  lemma StillActive(p: Policy, m: Memory, alias: Alias)
    requires m.data.lifecycle.Active? && m.send.Idle?
    ensures ApplyMemory(p, m, StartReceive(alias)).data.lifecycle.Active?
    ensures ApplyMemory(p, m, StartReceive(alias)).data.budgets == m.data.budgets
    ensures ApplyMemory(p, m, StartReceive(alias)).data.budgets.gets < p.limits.gets ==>
      MemoryEnabled(p, ApplyMemory(p, m, StartReceive(alias)), SpendGet)
  {
  }

  /** Once one message fails, the rest are not looked at. */
  lemma {:induction false} FailureEndsIt(p: Policy, m: Memory, alias: Alias, messages: seq<Message>, k: nat)
    requires k <= |messages| && (k == |messages| || !Classify(p, m, alias, messages[..k]).ok)
    ensures Classify(p, m, alias, messages) == Classify(p, m, alias, messages[..k])
    decreases |messages|
  {
    hide MessageAction, MessageOk, ApplyMemory, MemoryEnabled;
    if k == |messages| {
      assert messages[..k] == messages;
    } else {
      assert messages[..|messages| - 1][..k] == messages[..k];
      FailureEndsIt(p, m, alias, messages[..|messages| - 1], k);
    }
  }

  lemma AuthorizedHasNode(p: Policy, s: Session, id: EffectId, e: Effect)
    requires EffectAuthorized(p, s, id, e)
    ensures id.node in s.nodes
  {
  }
}
