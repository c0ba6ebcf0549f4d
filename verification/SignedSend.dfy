/**
 Signed sends by any number of concurrent callers, over shared approval and nonce stores, a server that
 refuses stale nonces, and tasks whose runs are recovered after a crash. Every step is one write of one
 store, one network event, or the death of a caller.
 */
module SignedSend {
  import opened Wrappers
  import opened Approvals
  import opened Transport

  type CallId = nat
  type TaskId = string

  datatype Pc =
    | Entered
    | Proposed                       // `consume` has made sure that a record exists
    | Spent
    | Nonced
    | Sent                           // inside the transport's POST loop
    | Answered
    | Closing(status: Status)        // an error is on its way out; the record is still executing
    | Returned
    | NeedsApproval                  // refused because the action is only requested
    | Dead

  datatype Call = Call(id: ActionId, effect: Effect, text: Text, pc: Pc, nonce: Option<nat>, outcome: Option<Outcome>,
                       replies: seq<Reply>)

  datatype TaskStatus = Pending | Running | AwaitingApproval | Succeeded | TaskFailed | TaskAmbiguous
  /** `possible`: the last checkpoint says that an external effect may have happened. */
  datatype Task = Task(status: TaskStatus, possible: bool, call: Option<CallId>)

  /** What happened so far, in order. */
  datatype History = History(
    granted: set<ActionHash>,
    spender: map<ActionId, CallId>,
    consumed: seq<CallId>,
    reserved: seq<CallId>,
    dispatched: seq<CallId>)

  datatype State = State(
    records: Records,
    nonces: map<NonceKey, nat>,
    calls: map<CallId, Call>,
    server: map<NonceKey, nat>,
    tasks: map<TaskId, Task>,
    history: History)

  datatype Action =
    | Propose(id: ActionId, effect: Effect)
    | Grant(alias: Alias, hash: ActionHash)
    | Enter(call: CallId, id: ActionId, effect: Effect, text: Text)
    | Ask(call: CallId)
    | Spend(call: CallId)
    | Reserve(call: CallId, clock: nat)
    | FailSigning(call: CallId)
    | Dispatch(call: CallId)
    | Answer(call: CallId, outcome: Outcome, replies: seq<Reply>)
    | Settle(call: CallId, saved: bool)
    | Close(call: CallId, saved: bool)
    | Die(call: CallId)
    | Arrive(call: CallId)
    | Enqueue(task: TaskId)
    | Claim(task: TaskId)
    | Intend(task: TaskId)
    | EnterTask(task: TaskId, call: CallId, effect: Effect, text: Text)
    | Wait(task: TaskId)
    | Resume(task: TaskId)
    | FinishTask(task: TaskId, status: TaskStatus)
    | Recover(task: TaskId)

  const Initial := State(map[], map[], map[], map[], map[], History({}, map[], [], [], []))

  /** How text is sanitized, and how a task's action identifier is derived, are fixed. */
  datatype Setting = Setting(clean: Text -> Text, actionOf: TaskId -> ActionId)

  function KeyOf(e: Effect): NonceKey {
    NonceKey(e.did, e.destination.room)
  }

  /** What one signed message carries. */
  datatype Envelope = Envelope(did: Did, room: Room, nonce: nat, text: Text)

  function EnvelopeOf(g: Setting, c: Call): Envelope
    requires c.nonce.Some?
  {
    Envelope(c.effect.did, c.effect.destination.room, c.nonce.value, g.clean(c.text))
  }

  predicate At(s: State, c: CallId, pc: Pc) {
    c in s.calls && s.calls[c].pc == pc
  }

  function Move(s: State, c: CallId, pc: Pc): State
    requires c in s.calls
  {
    s.(calls := s.calls[c := s.calls[c].(pc := pc)])
  }

  function SetTask(s: State, t: TaskId, task: Task): State {
    s.(tasks := s.tasks[t := task])
  }

  predicate Enabled(g: Setting, s: State, a: Action) {
    match a
    case Propose(id, effect) => id.alias == effect.alias
    case Grant(alias, hash) =>
      hash.id in s.records && s.records[hash.id] == Approval(hash.effect, Requested)
      && hash.id.alias == alias && hash.effect.alias == alias
    case Enter(c, id, effect, text) => c !in s.calls && id.alias == effect.alias && effect.payload == g.clean(text)
    case Ask(c) => At(s, c, Entered)
    case Spend(c) => At(s, c, Proposed) && s.calls[c].id in s.records
    case Reserve(c, _) => At(s, c, Spent)
    case FailSigning(c) => At(s, c, Nonced)
    case Dispatch(c) => At(s, c, Nonced)
    case Answer(c, outcome, replies) => At(s, c, Sent) && replies != [] && Justified(outcome, replies)
    case Settle(c, _) => At(s, c, Answered) && s.calls[c].outcome.Some?
    case Close(c, _) => c in s.calls && s.calls[c].pc.Closing?
    case Die(c) => c in s.calls
    case Arrive(c) => c in s.history.dispatched && c in s.calls && s.calls[c].nonce.Some?
    case Enqueue(t) => t !in s.tasks
    case Claim(t) => t in s.tasks && s.tasks[t].status.Pending?
    case Intend(t) => t in s.tasks && s.tasks[t].status.Running? && s.tasks[t].call.None? && !s.tasks[t].possible
      && g.actionOf(t) in s.records && s.records[g.actionOf(t)].status.Approved?
    case EnterTask(t, c, effect, text) => t in s.tasks && s.tasks[t].status.Running? && s.tasks[t].possible
      && s.tasks[t].call.None? && c !in s.calls && g.actionOf(t).alias == effect.alias && effect.payload == g.clean(text)
    case Wait(t) => t in s.tasks && s.tasks[t].status.Running?
      && (if s.tasks[t].call.None? then !s.tasks[t].possible else At(s, s.tasks[t].call.value, NeedsApproval))
    case Resume(t) => t in s.tasks && (s.tasks[t].status.Pending? || s.tasks[t].status.AwaitingApproval?)
    case FinishTask(t, status) => t in s.tasks && s.tasks[t].status.Running?
      && (status.Succeeded? || status.TaskFailed? || (status.TaskAmbiguous? && s.tasks[t].possible))
    case Recover(t) => t in s.tasks && s.tasks[t].status.Running?
  }

  function Apply(g: Setting, s: State, a: Action): State
    requires Enabled(g, s, a)
  {
    match a
    case Propose(id, effect) => if id in s.records then s else s.(records := s.records[id := Approval(effect, Requested)])
    case Grant(_, hash) =>
      s.(records := s.records[hash.id := Approval(hash.effect, Approved)],
         history := s.history.(granted := s.history.granted + {hash}))
    case Enter(c, id, effect, text) => s.(calls := s.calls[c := Call(id, effect, text, Entered, None, None, [])])
    case Ask(c) =>
      var id, effect := s.calls[c].id, s.calls[c].effect;
      if id !in s.records then Move(s.(records := s.records[id := Approval(effect, Requested)]), c, Proposed)
      else Move(s, c, if s.records[id].effect == effect then Proposed else Returned)
    case Spend(c) =>
      var id := s.calls[c].id;
      var r := s.records[id];
      if r.status.Requested? then Move(s, c, NeedsApproval)
      else if !r.status.Approved? then Move(s, c, Returned)
      else
        Move(s, c, Spent).(
          records := s.records[id := r.(status := Executing)],
          history := s.history.(consumed := s.history.consumed + [c], spender := s.history.spender[id := c]))
    case Reserve(c, clock) =>
      var key := KeyOf(s.calls[c].effect);
      var next := NextNonce(s.nonces, key, clock);
      if next >= NonceLimit then Move(s, c, Closing(FailedResult))
      else
        s.(nonces := s.nonces[key := next],
           calls := s.calls[c := s.calls[c].(pc := Nonced, nonce := Some(next))],
           history := s.history.(reserved := s.history.reserved + [c]))
    case FailSigning(c) => Move(s, c, Closing(FailedResult))
    case Dispatch(c) => Move(s, c, Sent).(history := s.history.(dispatched := s.history.dispatched + [c]))
    case Answer(c, outcome, replies) =>
      s.(calls := s.calls[c := s.calls[c].(pc := Answered, outcome := Some(outcome), replies := replies)])
    case Settle(c, saved) =>
      var call := s.calls[c];
      match call.outcome.value {
        case Parsed => if saved then Finish(Move(s, c, Returned), call.id, Confirmed) else Move(s, c, Closing(AmbiguousResult))
        case Refused => Move(s, c, Closing(FailedResult))
        case Unknown => Move(s, c, Closing(AmbiguousResult))
      }
    case Close(c, saved) =>
      var t := Move(s, c, Returned);
      if saved then Finish(t, s.calls[c].id, s.calls[c].pc.status) else t
    case Die(c) => Move(s, c, Dead)
    case Arrive(c) =>
      var key, nonce := KeyOf(s.calls[c].effect), s.calls[c].nonce.value;
      if key in s.server && nonce <= s.server[key] then s else s.(server := s.server[key := nonce])
    case Enqueue(t) => SetTask(s, t, Task(Pending, false, None))
    case Claim(t) => SetTask(s, t, s.tasks[t].(status := Running, possible := false))
    case Intend(t) => SetTask(s, t, s.tasks[t].(possible := true))
    case EnterTask(t, c, effect, text) =>
      SetTask(s, t, s.tasks[t].(call := Some(c))).(
        calls := s.calls[c := Call(g.actionOf(t), effect, text, Entered, None, None, [])])
    case Wait(t) => SetTask(s, t, s.tasks[t].(status := AwaitingApproval, possible := false))
    case Resume(t) => SetTask(s, t, s.tasks[t].(status := Pending))
    case FinishTask(t, status) => SetTask(s, t, s.tasks[t].(status := status, possible := status.TaskAmbiguous?))
    case Recover(t) => SetTask(s, t, s.tasks[t].(status := if s.tasks[t].possible then TaskAmbiguous else Pending))
  }

  /** Only an executing record can be finished. */
  function Finish(s: State, id: ActionId, status: Status): State {
    if id in s.records && s.records[id].status.Executing? then s.(records := s.records[id := s.records[id].(status := status)]) else s
  }

  ghost predicate Run(g: Setting, s: State, log: seq<Action>, t: State)
    decreases |log|
  {
    if log == [] then s == t
    else Enabled(g, s, log[0]) && Run(g, Apply(g, s, log[0]), log[1..], t)
  }

  // ------------------------------------------------------------------ invariant

  predicate HasSpent(pc: Pc) {
    pc.Spent? || pc.Nonced? || pc.Sent? || pc.Answered? || pc.Closing?
  }

  predicate BeforeSending(pc: Pc) {
    pc.Entered? || pc.Proposed? || pc.Spent? || pc.Nonced? || pc.NeedsApproval?
  }

  /** A record, what was granted for it and who spent it. */
  ghost predicate RecordFits(s: State, id: ActionId) {
    && id in s.records
    && var r := s.records[id];
    && (!r.status.Requested? ==> ActionHash(id, r.effect) in s.history.granted)
    && (r.status.Executing? || Final(r.status) <==> id in s.history.spender)
    && (id in s.history.spender ==> SpenderFits(s, id))
  }

  /** The call that spent an action; how its record ended is justified by what the network said. */
  ghost predicate SpenderFits(s: State, id: ActionId)
    requires id in s.records && id in s.history.spender
  {
    var c, r := s.history.spender[id], s.records[id];
    && c in s.calls && s.calls[c].id == id && s.calls[c].effect == r.effect
    && c in s.history.consumed
    && (r.status.Confirmed? ==> s.calls[c].outcome == Some(Parsed))
    && (r.status.FailedResult? ==> c !in s.history.dispatched || s.calls[c].outcome == Some(Refused))
    && (HasSpent(s.calls[c].pc) ==> r.status.Executing?)
  }

  ghost predicate CallFits(g: Setting, s: State, c: CallId) {
    && c in s.calls
    && var call := s.calls[c];
    && call.effect.payload == g.clean(call.text)
    && (HasSpent(call.pc) ==> c in s.history.consumed)
    && (c in s.history.consumed ==>
          call.id in s.history.spender && s.history.spender[call.id] == c && call.id in s.records && !call.pc.Entered? && !call.pc.Proposed? && !call.pc.NeedsApproval?)
    && (call.nonce.Some? <==> c in s.history.reserved)
    && (call.nonce.Some? ==> c in s.history.consumed && KeyOf(call.effect) in s.nonces && call.nonce.value <= s.nonces[KeyOf(call.effect)] && !call.pc.Spent?)
    && (call.pc.Nonced? || call.pc.Sent? || call.pc.Answered? ==> call.nonce.Some?)
    && (c in s.history.dispatched ==> call.nonce.Some? && !BeforeSending(call.pc))
    && (BeforeSending(call.pc) || call.pc.Sent? ==> call.outcome.None?)
    && (call.pc.Sent? || call.pc.Answered? ==> c in s.history.dispatched)
    && (call.outcome.Some? ==> c in s.history.dispatched && call.replies != [] && Justified(call.outcome.value, call.replies))
    && (call.pc == Closing(FailedResult) ==> c !in s.history.dispatched || call.outcome == Some(Refused))
    && (call.pc.Closing? ==> call.pc.status.FailedResult? || call.pc.status.AmbiguousResult?)
    && (call.pc.Proposed? ==> call.id in s.records && s.records[call.id].effect == call.effect)
  }

  ghost predicate Increasing(s: State, i: nat, j: nat)
    requires i < |s.history.reserved| && j < |s.history.reserved|
  {
    var a, b := s.history.reserved[i], s.history.reserved[j];
    a in s.calls && b in s.calls && a != b && s.calls[a].nonce.Some? && s.calls[b].nonce.Some?
    && (KeyOf(s.calls[a].effect) == KeyOf(s.calls[b].effect) ==> s.calls[a].nonce.value < s.calls[b].nonce.value)
  }

  ghost predicate TaskFits(g: Setting, s: State, t: TaskId) {
    && t in s.tasks
    && var task := s.tasks[t];
    && (task.possible || task.call.Some? ==> g.actionOf(t) in s.records && !s.records[g.actionOf(t)].status.Requested?)
    && (task.possible ==> !task.status.Pending? && !task.status.AwaitingApproval?)
    && (task.call.Some? ==>
          && task.call.value in s.calls && s.calls[task.call.value].id == g.actionOf(t)
          && !task.status.Pending? && !task.status.AwaitingApproval?
          && (task.status.Running? ==> task.possible)
          && !s.calls[task.call.value].pc.NeedsApproval?)
  }

  ghost predicate Distinct<T>(s: seq<T>) {
    forall i, j | 0 <= i < j < |s| :: s[i] != s[j]
  }

  ghost predicate RecordsFit(s: State) {
    (forall id | id in s.records :: RecordFits(s, id)) && s.history.spender.Keys <= s.records.Keys
  }

  ghost predicate CallsFit(g: Setting, s: State) {
    forall c | c in s.calls :: CallFits(g, s, c)
  }

  ghost predicate ReservedIncrease(s: State) {
    forall i, j | 0 <= i < j < |s.history.reserved| :: Increasing(s, i, j)
  }

  ghost predicate TasksFit(g: Setting, s: State) {
    forall t | t in s.tasks :: TaskFits(g, s, t)
  }

  ghost predicate ServerFits(s: State) {
    forall k | k in s.server :: k in s.nonces && s.server[k] <= s.nonces[k]
  }

  ghost predicate HistoryFits(s: State) {
    && (forall c | c in s.history.consumed :: c in s.calls)
    && (forall c | c in s.history.reserved :: c in s.calls)
    && (forall c | c in s.history.dispatched :: c in s.calls)
    && Distinct(s.history.consumed) && Distinct(s.history.dispatched)
  }

  ghost predicate Inv(g: Setting, s: State) {
    RecordsFit(s) && CallsFit(g, s) && ReservedIncrease(s) && TasksFit(g, s) && ServerFits(s) && HistoryFits(s)
  }

  /** A call together with the record of its action. */
  ghost predicate OwnFits(g: Setting, t: State, c: CallId) {
    && c in t.calls && CallFits(g, t, c)
    && (t.calls[c].id in t.records ==> RecordFits(t, t.calls[c].id))
    && (t.calls[c].id in t.history.spender ==> t.calls[c].id in t.records)
  }

  lemma InvCall(g: Setting, s: State, c: CallId)
    requires Inv(g, s) && c in s.calls
    ensures OwnFits(g, s, c)
  {
    hide CallFits, RecordFits, ReservedIncrease, TasksFit, ServerFits, HistoryFits;
  }

  // ------------------------------------------------------- a step of one existing call

  /** Only call `c`, its own record, its nonce and its place in the history change. */
  ghost predicate CallMoves(s: State, t: State, c: CallId) {
    && c in s.calls && c in t.calls && t.calls == s.calls[c := t.calls[c]]
    && var a, b := s.calls[c], t.calls[c];
    && a.id == b.id && a.effect == b.effect && a.text == b.text && (a.nonce.Some? ==> b.nonce == a.nonce)
    && t.tasks == s.tasks && t.server == s.server && t.history.granted == s.history.granted
    && (forall id | id in s.records :: id in t.records && t.records[id].effect == s.records[id].effect
          && (!s.records[id].status.Requested? ==> !t.records[id].status.Requested?))
    && (forall id | id in t.records && id != a.id :: id in s.records && t.records[id] == s.records[id])
    && (forall id | id in s.history.spender :: id in t.history.spender && t.history.spender[id] == s.history.spender[id])
    && (forall id | id in t.history.spender && id != a.id :: id in s.history.spender)
    && (forall k | k in s.nonces :: k in t.nonces && s.nonces[k] <= t.nonces[k])
    && (t.history.consumed == s.history.consumed || (t.history.consumed == s.history.consumed + [c] && c !in s.history.consumed))
    && (t.history.dispatched == s.history.dispatched || (t.history.dispatched == s.history.dispatched + [c] && c !in s.history.dispatched))
    && (t.history.reserved == s.history.reserved || (t.history.reserved == s.history.reserved + [c] && c !in s.history.reserved
          && b.nonce.Some? && (KeyOf(a.effect) in s.nonces ==> s.nonces[KeyOf(a.effect)] < b.nonce.value)))
    && (b.pc.NeedsApproval? ==> a.id in s.records && s.records[a.id].status.Requested?)
  }

  lemma OtherCallFits(g: Setting, s: State, t: State, c: CallId, d: CallId)
    requires CallMoves(s, t, c) && d in s.calls && d != c && CallFits(g, s, d)
    ensures CallFits(g, t, d)
  {
  }

  lemma OtherRecordFits(s: State, t: State, c: CallId, id: ActionId)
    requires CallMoves(s, t, c) && id in s.records && id != s.calls[c].id && RecordFits(s, id)
    ensures RecordFits(t, id)
  {
  }

  lemma OtherTaskFits(g: Setting, s: State, t: State, c: CallId, k: TaskId)
    requires CallMoves(s, t, c) && k in s.tasks && TaskFits(g, s, k)
    ensures TaskFits(g, t, k)
  {
  }

  lemma ReservedStillIncrease(g: Setting, s: State, t: State, c: CallId)
    requires CallsFit(g, s) && ReservedIncrease(s) && HistoryFits(s) && CallMoves(s, t, c)
    ensures ReservedIncrease(t)
  {
    var n := |s.history.reserved|;
    forall i, j | 0 <= i < j < |t.history.reserved|
      ensures Increasing(t, i, j)
    {
      assert t.history.reserved[i] == s.history.reserved[i];
      assert s.history.reserved[i] in s.calls;
      if j < n {
        assert Increasing(s, i, j);
      } else {
        assert CallFits(g, s, s.history.reserved[i]);
      }
    }
  }

  lemma RecordsStillFit(g: Setting, s: State, t: State, c: CallId)
    requires RecordsFit(s) && CallMoves(s, t, c) && OwnFits(g, t, c)
    ensures RecordsFit(t)
  {
    hide RecordFits, CallFits;
    forall id | id in t.records
      ensures RecordFits(t, id)
    {
      if id != s.calls[c].id { OtherRecordFits(s, t, c, id); }
    }
  }

  lemma CallsStillFit(g: Setting, s: State, t: State, c: CallId)
    requires CallsFit(g, s) && CallMoves(s, t, c) && OwnFits(g, t, c)
    ensures CallsFit(g, t)
  {
    hide RecordFits, CallFits;
    forall d | d in t.calls
      ensures CallFits(g, t, d)
    {
      if d != c { OtherCallFits(g, s, t, c, d); }
    }
  }

  lemma TasksStillFit(g: Setting, s: State, t: State, c: CallId)
    requires TasksFit(g, s) && CallMoves(s, t, c)
    ensures TasksFit(g, t)
  {
    hide TaskFits;
    forall k | k in t.tasks
      ensures TaskFits(g, t, k)
    {
      OtherTaskFits(g, s, t, c, k);
    }
  }

  lemma MoveKeepsInv(g: Setting, s: State, t: State, c: CallId)
    requires Inv(g, s) && CallMoves(s, t, c) && OwnFits(g, t, c)
    ensures Inv(g, t)
  {
    assert ServerFits(t) && HistoryFits(t);
    hide CallMoves, OwnFits, RecordsFit, CallsFit, ReservedIncrease, TasksFit, ServerFits, HistoryFits;
    RecordsStillFit(g, s, t, c);
    CallsStillFit(g, s, t, c);
    ReservedStillIncrease(g, s, t, c);
    TasksStillFit(g, s, t, c);
  }

  // --------------------------------------------------------------- each of its steps

  lemma AskMoves(g: Setting, s: State, c: CallId)
    requires OwnFits(g, s, c) && Enabled(g, s, Ask(c))
    ensures var t := Apply(g, s, Ask(c)); CallMoves(s, t, c) && OwnFits(g, t, c)
  {
  }

  lemma SpendMoves(g: Setting, s: State, c: CallId)
    requires OwnFits(g, s, c) && Enabled(g, s, Spend(c)) && s.records[s.calls[c].id].status.Approved?
    ensures var t := Apply(g, s, Spend(c)); CallMoves(s, t, c) && OwnFits(g, t, c)
  {
  }

  lemma RefuseMoves(g: Setting, s: State, c: CallId)
    requires OwnFits(g, s, c) && Enabled(g, s, Spend(c)) && !s.records[s.calls[c].id].status.Approved?
    ensures var t := Apply(g, s, Spend(c)); CallMoves(s, t, c) && OwnFits(g, t, c)
  {
  }

  lemma ReserveMoves(g: Setting, s: State, c: CallId, clock: nat)
    requires OwnFits(g, s, c) && Enabled(g, s, Reserve(c, clock))
    requires NextNonce(s.nonces, KeyOf(s.calls[c].effect), clock) < NonceLimit
    ensures var t := Apply(g, s, Reserve(c, clock)); CallMoves(s, t, c) && OwnFits(g, t, c)
  {
  }

  lemma DispatchMoves(g: Setting, s: State, c: CallId)
    requires OwnFits(g, s, c) && Enabled(g, s, Dispatch(c))
    ensures var t := Apply(g, s, Dispatch(c)); CallMoves(s, t, c) && OwnFits(g, t, c)
  {
  }

  lemma AnswerMoves(g: Setting, s: State, c: CallId, outcome: Outcome, replies: seq<Reply>)
    requires OwnFits(g, s, c) && Enabled(g, s, Answer(c, outcome, replies))
    ensures var t := Apply(g, s, Answer(c, outcome, replies)); CallMoves(s, t, c) && OwnFits(g, t, c)
  {
  }

  lemma ConfirmMoves(g: Setting, s: State, c: CallId)
    requires OwnFits(g, s, c) && Enabled(g, s, Settle(c, true)) && s.calls[c].outcome == Some(Parsed)
    ensures var t := Apply(g, s, Settle(c, true)); CallMoves(s, t, c) && OwnFits(g, t, c)
  {
  }

  /** An error sets out for the record: refused or never sent, or unknown. */
  lemma ClosingMoves(g: Setting, s: State, c: CallId, status: Status)
    requires OwnFits(g, s, c) && HasSpent(s.calls[c].pc) && (status.FailedResult? || status.AmbiguousResult?)
    requires status.FailedResult? ==> c !in s.history.dispatched || s.calls[c].outcome == Some(Refused)
    ensures CallMoves(s, Move(s, c, Closing(status)), c) && OwnFits(g, Move(s, c, Closing(status)), c)
  {
  }

  lemma CloseMoves(g: Setting, s: State, c: CallId, saved: bool)
    requires OwnFits(g, s, c) && Enabled(g, s, Close(c, saved))
    ensures var t := Apply(g, s, Close(c, saved)); CallMoves(s, t, c) && OwnFits(g, t, c)
  {
  }

  lemma DieMoves(g: Setting, s: State, c: CallId)
    requires OwnFits(g, s, c) && Enabled(g, s, Die(c))
    ensures var t := Apply(g, s, Die(c)); CallMoves(s, t, c) && OwnFits(g, t, c)
  {
  }

  ghost predicate OfCall(a: Action) {
    a.Ask? || a.Spend? || a.Reserve? || a.FailSigning? || a.Dispatch? || a.Answer? || a.Settle? || a.Close? || a.Die?
  }

  lemma CallStepFits(g: Setting, s: State, a: Action)
    requires OfCall(a) && Enabled(g, s, a) && OwnFits(g, s, a.call)
    ensures var t := Apply(g, s, a); CallMoves(s, t, a.call) && OwnFits(g, t, a.call)
  {
    NotSentBefore(g, s, a.call);
    hide CallMoves, OwnFits;
    match a
    case Ask(c) => AskMoves(g, s, c);
    case Spend(c) =>
      if s.records[s.calls[c].id].status.Approved? { SpendMoves(g, s, c); } else { RefuseMoves(g, s, c); }
    case Reserve(c, clock) =>
      if NextNonce(s.nonces, KeyOf(s.calls[c].effect), clock) < NonceLimit { ReserveMoves(g, s, c, clock); }
      else { ClosingMoves(g, s, c, FailedResult); }
    case FailSigning(c) => ClosingMoves(g, s, c, FailedResult);
    case Dispatch(c) => DispatchMoves(g, s, c);
    case Answer(c, outcome, replies) => AnswerMoves(g, s, c, outcome, replies);
    case Settle(c, saved) =>
      if s.calls[c].outcome == Some(Parsed) && saved { ConfirmMoves(g, s, c); }
      else { ClosingMoves(g, s, c, if s.calls[c].outcome == Some(Refused) then FailedResult else AmbiguousResult); }
    case Close(c, saved) => CloseMoves(g, s, c, saved);
    case Die(c) => DieMoves(g, s, c);
  }

  lemma NotSentBefore(g: Setting, s: State, c: CallId)
    requires OwnFits(g, s, c)
    ensures BeforeSending(s.calls[c].pc) ==> c !in s.history.dispatched
  {
  }

  lemma CallStepKeepsInv(g: Setting, s: State, a: Action)
    requires Inv(g, s) && OfCall(a) && Enabled(g, s, a)
    ensures Inv(g, Apply(g, s, a))
  {
    CallExists(g, s, a);
    hide Inv, Enabled, Apply, OwnFits, CallMoves;
    InvCall(g, s, a.call);
    CallStepFits(g, s, a);
    MoveKeepsInv(g, s, Apply(g, s, a), a.call);
  }

  lemma CallExists(g: Setting, s: State, a: Action)
    requires OfCall(a) && Enabled(g, s, a)
    ensures a.call in s.calls
  {
  }

  // -------------------------------------------------------- proposals, grants, arrivals

  /** Reservations are judged by calls that are still there, unchanged. */
  lemma IncreaseStays(s: State, t: State)
    requires ReservedIncrease(s) && t.history.reserved == s.history.reserved
    requires forall c | c in s.calls :: c in t.calls && t.calls[c] == s.calls[c]
    ensures ReservedIncrease(t)
  {
    forall i, j | 0 <= i < j < |t.history.reserved|
      ensures Increasing(t, i, j)
    {
      assert Increasing(s, i, j);
    }
  }

  /** A request that nobody has spent, or even granted, is no business of any call or task. */
  lemma RequestIsApart(g: Setting, s: State, t: State, id: ActionId, r: Approval)
    requires RecordsFit(s) && CallsFit(g, s) && TasksFit(g, s)
    requires id !in s.records && t == s.(records := s.records[id := r]) && r.status.Requested?
    ensures RecordsFit(t) && CallsFit(g, t) && TasksFit(g, t)
  {
    forall i | i in t.records
      ensures RecordFits(t, i)
    {
      assert i != id ==> RecordFits(s, i);
    }
    forall c | c in t.calls
      ensures CallFits(g, t, c)
    {
      assert CallFits(g, s, c);
    }
    forall k | k in t.tasks
      ensures TaskFits(g, t, k)
    {
      assert TaskFits(g, s, k);
    }
  }

  lemma ProposeKeepsInv(g: Setting, s: State, id: ActionId, effect: Effect)
    requires Inv(g, s) && Enabled(g, s, Propose(id, effect))
    ensures Inv(g, Apply(g, s, Propose(id, effect)))
  {
    hide CallsFit, RecordsFit, ReservedIncrease, TasksFit;
    var t := Apply(g, s, Propose(id, effect));
    if id !in s.records {
      IncreaseStays(s, t);
      RequestIsApart(g, s, t, id, Approval(effect, Requested));
    }
  }

  lemma GrantKeepsRecords(g: Setting, s: State, alias: Alias, hash: ActionHash)
    requires RecordsFit(s) && Enabled(g, s, Grant(alias, hash))
    ensures RecordsFit(Apply(g, s, Grant(alias, hash)))
  {
    assert RecordFits(s, hash.id);
  }

  lemma GrantKeepsInv(g: Setting, s: State, alias: Alias, hash: ActionHash)
    requires Inv(g, s) && Enabled(g, s, Grant(alias, hash))
    ensures Inv(g, Apply(g, s, Grant(alias, hash)))
  {
    hide ReservedIncrease, RecordsFit, RecordFits;
    var t := Apply(g, s, Grant(alias, hash));
    IncreaseStays(s, t);
    GrantKeepsRecords(g, s, alias, hash);
    assert CallsFit(g, t);
    assert TasksFit(g, t);
  }

  /** A new call disturbs nothing: nobody refers to it yet. */
  lemma NewCallIsNew(g: Setting, s: State, t: State, c: CallId)
    requires Inv(g, s) && c !in s.calls && c in t.calls && t.calls == s.calls[c := t.calls[c]]
    requires t.calls[c].pc.Entered? && t.calls[c].nonce.None? && t.calls[c].outcome.None? && t.calls[c].effect.payload == g.clean(t.calls[c].text)
    requires t.records == s.records && t.nonces == s.nonces && t.history == s.history && t.server == s.server
    ensures RecordsFit(t) && CallsFit(g, t) && ReservedIncrease(t) && ServerFits(t) && HistoryFits(t)
    ensures t.tasks == s.tasks ==> TasksFit(g, t)
  {
    assert c !in s.history.consumed && c !in s.history.reserved && c !in s.history.dispatched;
    IncreaseStays(s, t);
    hide ReservedIncrease;
    assert RecordsFit(t);
    assert CallsFit(g, t);
  }

  lemma EnterKeepsInv(g: Setting, s: State, c: CallId, id: ActionId, effect: Effect, text: Text)
    requires Inv(g, s) && Enabled(g, s, Enter(c, id, effect, text))
    ensures Inv(g, Apply(g, s, Enter(c, id, effect, text)))
  {
    hide Inv;
    NewCallIsNew(g, s, Apply(g, s, Enter(c, id, effect, text)), c);
    InvFrom(g, Apply(g, s, Enter(c, id, effect, text)));
  }

  lemma InvFrom(g: Setting, s: State)
    requires RecordsFit(s) && CallsFit(g, s) && ReservedIncrease(s) && TasksFit(g, s) && ServerFits(s) && HistoryFits(s)
    ensures Inv(g, s)
  {
  }

  lemma ArriveKeepsServer(g: Setting, s: State, c: CallId)
    requires ServerFits(s) && CallsFit(g, s) && Enabled(g, s, Arrive(c))
    ensures var t := Apply(g, s, Arrive(c)); t == s.(server := t.server) && ServerFits(t)
  {
    assert CallFits(g, s, c);
  }

  lemma ArriveKeepsInv(g: Setting, s: State, c: CallId)
    requires Inv(g, s) && Enabled(g, s, Arrive(c))
    ensures Inv(g, Apply(g, s, Arrive(c)))
  {
    hide Enabled, Apply, CallsFit, RecordsFit, ReservedIncrease, TasksFit, ServerFits;
    var t := Apply(g, s, Arrive(c));
    ArriveKeepsServer(g, s, c);
    IncreaseStays(s, t);
    ServerIsApart(g, s, t);
  }

  lemma ServerIsApart(g: Setting, s: State, t: State)
    requires RecordsFit(s) && CallsFit(g, s) && TasksFit(g, s) && t == s.(server := t.server)
    ensures RecordsFit(t) && CallsFit(g, t) && TasksFit(g, t)
  {
    forall id | id in t.records
      ensures RecordFits(t, id)
    {
      assert RecordFits(s, id);
    }
    forall c | c in t.calls
      ensures CallFits(g, t, c)
    {
      assert CallFits(g, s, c);
    }
    forall k | k in t.tasks
      ensures TaskFits(g, t, k)
    {
      assert TaskFits(g, s, k);
    }
  }

  // ---------------------------------------------------------------------- tasks

  ghost predicate OfTask(a: Action) {
    a.Claim? || a.Intend? || a.Wait? || a.Resume? || a.FinishTask? || a.Recover?
  }

  lemma OnlyTasksChange(g: Setting, s: State, t: State)
    requires Inv(g, s) && t == s.(tasks := t.tasks) && TasksFit(g, t)
    ensures Inv(g, t)
  {
    IncreaseStays(s, t);
    hide ReservedIncrease, TaskFits;
    forall id | id in t.records
      ensures RecordFits(t, id)
    {
      assert RecordFits(s, id);
    }
    forall c | c in t.calls
      ensures CallFits(g, t, c)
    {
      assert CallFits(g, s, c);
    }
  }

  lemma TaskStepFits(g: Setting, s: State, a: Action)
    requires TasksFit(g, s) && OfTask(a) && Enabled(g, s, a)
    ensures TaskFits(g, Apply(g, s, a), a.task)
  {
    assert TaskFits(g, s, a.task);
  }

  lemma OtherTasksFit(g: Setting, s: State, t: State, k: TaskId)
    requires TasksFit(g, s) && t == s.(tasks := t.tasks) && k in t.tasks && TaskFits(g, t, k)
    requires t.tasks == s.tasks[k := t.tasks[k]]
    ensures TasksFit(g, t)
  {
    forall j | j in t.tasks
      ensures TaskFits(g, t, j)
    {
      assert j != k ==> TaskFits(g, s, j);
    }
  }

  lemma EnqueuedFits(g: Setting, s: State, a: Action)
    requires a.Enqueue? && Enabled(g, s, a)
    ensures TaskFits(g, Apply(g, s, a), a.task)
  {
  }

  lemma TaskStepKeepsInv(g: Setting, s: State, a: Action)
    requires Inv(g, s) && (OfTask(a) || a.Enqueue?) && Enabled(g, s, a)
    ensures Inv(g, Apply(g, s, a))
  {
    OnlyTasks(g, s, a);
    hide Inv, TasksFit, TaskFits, Enabled, Apply;
    var t := Apply(g, s, a);
    TasksOf(g, s);
    if OfTask(a) {
      TaskStepFits(g, s, a);
    } else {
      EnqueuedFits(g, s, a);
    }
    OtherTasksFit(g, s, t, a.task);
    OnlyTasksChange(g, s, t);
  }

  lemma OnlyTasks(g: Setting, s: State, a: Action)
    requires (OfTask(a) || a.Enqueue?) && Enabled(g, s, a)
    ensures var t := Apply(g, s, a);
      t == s.(tasks := t.tasks) && a.task in t.tasks && t.tasks == s.tasks[a.task := t.tasks[a.task]]
  {
  }

  lemma CallsOf(g: Setting, s: State)
    requires Inv(g, s)
    ensures CallsFit(g, s)
  {
  }

  lemma TasksOf(g: Setting, s: State)
    requires Inv(g, s)
    ensures TasksFit(g, s)
  {
  }

  lemma EnterTaskKeepsInv(g: Setting, s: State, k: TaskId, c: CallId, effect: Effect, text: Text)
    requires Inv(g, s) && Enabled(g, s, EnterTask(k, c, effect, text))
    ensures Inv(g, Apply(g, s, EnterTask(k, c, effect, text)))
  {
    var t := Apply(g, s, EnterTask(k, c, effect, text));
    TasksOf(g, s);
    hide Inv;
    NewCallIsNew(g, s, t, c);
    forall j | j in t.tasks
      ensures TaskFits(g, t, j)
    {
      assert TaskFits(g, s, j);
    }
    hide TaskFits;
    InvFrom(g, t);
  }

  lemma StepKeepsInv(g: Setting, s: State, a: Action)
    requires Inv(g, s) && Enabled(g, s, a)
    ensures Inv(g, Apply(g, s, a))
  {
    hide Inv, Enabled, Apply;
    if OfCall(a) {
      CallStepKeepsInv(g, s, a);
    } else if OfTask(a) || a.Enqueue? {
      TaskStepKeepsInv(g, s, a);
    } else {
      match a
      case Propose(id, effect) => ProposeKeepsInv(g, s, id, effect);
      case Grant(alias, hash) => GrantKeepsInv(g, s, alias, hash);
      case Enter(c, id, effect, text) => EnterKeepsInv(g, s, c, id, effect, text);
      case Arrive(c) => ArriveKeepsInv(g, s, c);
      case EnterTask(k, c, effect, text) => EnterTaskKeepsInv(g, s, k, c, effect, text);
    }
  }

  lemma {:induction false} RunKeepsInv(g: Setting, s: State, log: seq<Action>, t: State)
    requires Inv(g, s) && Run(g, s, log, t)
    ensures Inv(g, t)
    decreases |log|
  {
    hide Inv, Enabled, Apply;
    if log != [] {
      StepKeepsInv(g, s, log[0]);
      RunKeepsInv(g, Apply(g, s, log[0]), log[1..], t);
    }
  }

  // ------------------------------------------------------------------- theorems

  ghost predicate Reachable(g: Setting, s: State) {
    exists log :: Run(g, Initial, log, s)
  }

  lemma ReachableInv(g: Setting, s: State)
    requires Reachable(g, s)
    ensures Inv(g, s)
  {
    var log :| Run(g, Initial, log, s);
    RunKeepsInv(g, Initial, log, s);
  }

  /** However many callers share an action, at most one of them ever spends it. */
  lemma ConsumedAtMostOnce(g: Setting, s: State, i: nat, j: nat)
    requires Reachable(g, s) && i < j < |s.history.consumed|
    ensures s.history.consumed[i] in s.calls && s.history.consumed[j] in s.calls
    ensures s.calls[s.history.consumed[i]].id != s.calls[s.history.consumed[j]].id
  {
    ReachableInv(g, s);
    var a, b := s.history.consumed[i], s.history.consumed[j];
    assert CallFits(g, s, a) && CallFits(g, s, b);
  }

  function Elements(s: seq<CallId>): set<CallId> {
    set c | c in s
  }

  lemma {:induction false} DistinctCount(s: seq<CallId>)
    ensures |Elements(s)| <= |s| && (Distinct(s) ==> |Elements(s)| == |s|)
    decreases |s|
  {
    if s != [] {
      var rest, last := s[..|s| - 1], s[|s| - 1];
      DistinctCount(rest);
      assert s == rest + [last];
      assert Elements(s) == Elements(rest) + {last};
    } else {
      assert Elements(s) == {};
    }
  }

  lemma DistinctWithin(a: seq<CallId>, b: seq<CallId>)
    requires Distinct(a) && forall c | c in a :: c in b
    ensures |a| <= |b|
  {
    DistinctCount(a);
    DistinctCount(b);
    SubsetCount(Elements(a), Elements(b));
  }

  lemma {:induction false} SubsetCount(a: set<CallId>, b: set<CallId>)
    requires a <= b
    ensures |a| <= |b|
    decreases a
  {
    if a != {} {
      var x :| x in a;
      SubsetCount(a - {x}, b - {x});
    }
  }

  /** No dispatch without its own reservation, no reservation without its own spent approval. */
  lemma DispatchesArePaidFor(g: Setting, s: State)
    requires Reachable(g, s)
    ensures |s.history.dispatched| <= |s.history.reserved| <= |s.history.consumed|
  {
    ReachableInv(g, s);
    forall c | c in s.history.dispatched
      ensures c in s.history.reserved
    {
      assert CallFits(g, s, c);
    }
    forall c | c in s.history.reserved
      ensures c in s.history.consumed
    {
      assert CallFits(g, s, c);
    }
    assert Distinct(s.history.reserved) by {
      forall i, j | 0 <= i < j < |s.history.reserved|
        ensures s.history.reserved[i] != s.history.reserved[j]
      {
        assert Increasing(s, i, j);
      }
    }
    hide Inv;
    DistinctWithin(s.history.dispatched, s.history.reserved);
    DistinctWithin(s.history.reserved, s.history.consumed);
  }

  /** Whatever is dispatched was granted before, exactly: same action, sender, room and sanitized text. */
  lemma DispatchWasGranted(g: Setting, s: State, c: CallId)
    requires Reachable(g, s) && (c in s.history.dispatched || Enabled(g, s, Dispatch(c)))
    ensures c in s.calls && s.calls[c].nonce.Some? && s.calls[c].id in s.records
    ensures s.records[s.calls[c].id].effect == s.calls[c].effect
    ensures ActionHash(s.calls[c].id, s.calls[c].effect) in s.history.granted
    ensures var approved := s.records[s.calls[c].id].effect;
      EnvelopeOf(g, s.calls[c]) == Envelope(approved.did, approved.destination.room, s.calls[c].nonce.value, approved.payload)
  {
    ReachableInv(g, s);
    InvCall(g, s, c);
    hide Inv;
  }

  /** Reserved nonces rise per sender and room, in order of reservation, whatever the clock said. */
  lemma NoncesRise(g: Setting, s: State, i: nat, j: nat)
    requires Reachable(g, s) && i < j < |s.history.reserved|
    ensures Increasing(s, i, j)
  {
    ReachableInv(g, s);
  }

  /** And the server never knows a nonce that the store does not already exceed or equal. */
  lemma ServerIsNeverAhead(g: Setting, s: State, key: NonceKey)
    requires Reachable(g, s) && key in s.server
    ensures key in s.nonces && s.server[key] <= s.nonces[key]
  {
    ReachableInv(g, s);
  }

  /** No two dispatched messages of one sender in one room carry the same nonce. */
  lemma NoncesAreUnique(g: Setting, s: State, a: CallId, b: CallId)
    requires Reachable(g, s) && a in s.history.dispatched && b in s.history.dispatched && a != b
    ensures a in s.calls && b in s.calls && s.calls[a].nonce.Some? && s.calls[b].nonce.Some?
    ensures KeyOf(s.calls[a].effect) == KeyOf(s.calls[b].effect) ==> s.calls[a].nonce != s.calls[b].nonce
  {
    ReachableInv(g, s);
    assert CallFits(g, s, a) && CallFits(g, s, b);
    var i :| 0 <= i < |s.history.reserved| && s.history.reserved[i] == a;
    var j :| 0 <= j < |s.history.reserved| && s.history.reserved[j] == b;
    if i < j {
      assert Increasing(s, i, j);
    } else {
      assert Increasing(s, j, i);
    }
  }

  /**
   A confirmed record had a parsed success; a failed one was never posted or every post of it was refused
   with a 4xx; anything else is executing or ambiguous.
   */
  lemma OutcomesAreSound(g: Setting, s: State, id: ActionId)
    requires Reachable(g, s) && id in s.records && Final(s.records[id].status)
    ensures id in s.history.spender && s.history.spender[id] in s.calls
    ensures var c, call := s.history.spender[id], s.calls[s.history.spender[id]];
      && call.id == id && call.effect == s.records[id].effect
      && (s.records[id].status.Confirmed? ==>
            c in s.history.dispatched && call.replies != [] && Success(call.replies[|call.replies| - 1]))
      && (s.records[id].status.FailedResult? ==>
            c !in s.history.dispatched || (call.replies != [] && forall r | r in call.replies :: ClientError(r)))
  {
    ReachableInv(g, s);
    assert RecordFits(s, id);
    assert CallFits(g, s, s.history.spender[id]);
    hide Inv;
  }

  lemma TasksUntouched(g: Setting, s: State, a: Action)
    requires Enabled(g, s, a) && !OfTask(a) && !a.EnterTask? && !a.Enqueue?
    ensures Apply(g, s, a).tasks == s.tasks
  {
  }

  lemma TaskStepKeepsCall(g: Setting, s: State, a: Action, k: TaskId)
    requires Enabled(g, s, a) && k in s.tasks && s.tasks[k].call.Some?
    ensures k in Apply(g, s, a).tasks && Apply(g, s, a).tasks[k].call == s.tasks[k].call
  {
    if !OfTask(a) && !a.EnterTask? && !a.Enqueue? {
      hide Enabled, Apply;
      TasksUntouched(g, s, a);
    }
  }

  /** A task that has entered its send keeps that one call for ever and is never queued again, crashes or not. */
  lemma {:induction false} TaskSendsOnce(g: Setting, s: State, log: seq<Action>, t: State, k: TaskId)
    requires Inv(g, s) && Run(g, s, log, t) && k in s.tasks && s.tasks[k].call.Some?
    ensures k in t.tasks && t.tasks[k].call == s.tasks[k].call
    ensures !t.tasks[k].status.Pending? && !t.tasks[k].status.AwaitingApproval?
    ensures !Enabled(g, t, Claim(k)) && forall c, effect, text :: !Enabled(g, t, EnterTask(k, c, effect, text))
    decreases |log|
  {
    if log == [] {
      assert TaskFits(g, s, k);
    } else {
      hide Inv, Apply;
      StepKeepsInv(g, s, log[0]);
      TaskStepKeepsCall(g, s, log[0], k);
      TaskSendsOnce(g, Apply(g, s, log[0]), log[1..], t, k);
    }
  }

  ghost predicate OfRecords(a: Action) {
    a.Propose? || a.Grant? || a.Ask? || a.Spend? || a.Settle? || a.Close?
  }

  lemma RecordsUntouched(g: Setting, s: State, a: Action)
    requires Enabled(g, s, a) && !OfRecords(a)
    ensures Apply(g, s, a).records == s.records
  {
  }

  lemma FinishMovesForward(s: State, id: ActionId, status: Status)
    requires Final(status)
    ensures Forward(s.records, Finish(s, id, status).records)
  {
  }

  lemma CloseMovesForward(g: Setting, s: State, a: Action)
    requires CallsFit(g, s) && Enabled(g, s, a) && (a.Settle? || a.Close?)
    ensures Forward(s.records, Apply(g, s, a).records)
  {
    assert CallFits(g, s, a.call);
    hide Forward;
    FinishMovesForward(Move(s, a.call, Returned), s.calls[a.call].id, if a.Settle? then Confirmed else s.calls[a.call].pc.status);
    SameRecordsForward(s.records);
  }

  lemma SameRecordsForward(r: Records)
    ensures Forward(r, r)
  {
  }

  lemma RequestMovesForward(g: Setting, s: State, a: Action)
    requires Enabled(g, s, a) && (a.Propose? || a.Grant? || a.Ask? || a.Spend?)
    ensures Forward(s.records, Apply(g, s, a).records)
  {
  }

  /** Records only move forward: granted once, spent once, ended once, with one effect throughout. */
  lemma RecordsMoveForward(g: Setting, s: State, a: Action)
    requires CallsFit(g, s) && Enabled(g, s, a)
    ensures Forward(s.records, Apply(g, s, a).records)
  {
    hide Enabled, Apply, CallsFit, Forward;
    if a.Settle? || a.Close? {
      CloseMovesForward(g, s, a);
    } else if OfRecords(a) {
      RequestMovesForward(g, s, a);
    } else {
      RecordsUntouched(g, s, a);
      SameRecordsForward(s.records);
    }
  }

  lemma {:induction false} SpentIsForEver(g: Setting, s: State, log: seq<Action>, t: State)
    requires Inv(g, s) && Run(g, s, log, t)
    ensures Forward(s.records, t.records)
    decreases |log|
  {
    if log != [] {
      hide Inv, Enabled, Apply;
      StepKeepsInv(g, s, log[0]);
      CallsOf(g, s);
      RecordsMoveForward(g, s, log[0]);
      SpentIsForEver(g, Apply(g, s, log[0]), log[1..], t);
    }
  }
}
