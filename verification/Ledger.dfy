/**
 The inference ledger: reservations in three scopes before any provider call, actual charges after it,
 and attempts that a crash leaves planned, reserved or running.
 */
module Ledger {
  import opened Wrappers
  import Decimals

  type Unit = string
  type Amount = string

  datatype Context = Context(session: string, agent: string, job: string, task: string, offline: bool)
  /** An attempt's identifier is a hash of exactly these parts. */
  datatype AttemptId = AttemptId(context: Context, request: string)

  datatype State = Planned | Reserved | Running | Succeeded | Failed | Ambiguous | Cancelled
  datatype Billing = Unsettled | Pending | Final
  datatype Error = BudgetDenied | ProviderTimeout | ProviderError | ProviderAmbiguous | InvalidMetadata | ReservationExceeded
  datatype Spend = Spend(asset: string, network: string, amount: Amount)

  datatype Attempt = Attempt(
    id: AttemptId, provider: string, state: State, history: seq<State>,
    usage: map<Unit, Amount>, spend: Option<Spend>, billing: Option<Billing>, error: Option<Error>)

  datatype Limit =
    | UsageLimit(unit: Unit, max: nat, reserve: nat)
    | SpendLimit(asset: string, network: string, max: nat, reserve: nat)

  datatype ScopeBudget = ScopeBudget(maxAttempts: nat, limits: seq<Limit>)
  datatype Scope = SessionScope | AgentScope | JobScope
  datatype Budgets = Budgets(session: ScopeBudget, agent: ScopeBudget, job: ScopeBudget)

  datatype Book = Book(budgets: Budgets, attempts: seq<Attempt>)

  function BudgetOf(b: Budgets, scope: Scope): ScopeBudget {
    match scope
    case SessionScope => b.session
    case AgentScope => b.agent
    case JobScope => b.job
  }

  function AllLimits(b: Budgets): seq<Limit> {
    b.session.limits + b.agent.limits + b.job.limits
  }

  function UnitsOf(a: Amount): nat {
    if Decimals.Units(a).Ok? then Decimals.Units(a).value else 0
  }

  // -------------------------------------------------------------------- charging

  predicate Matching(a: Context, c: Context, scope: Scope) {
    a.session == c.session
    && match scope
       case SessionScope => true
       case AgentScope => a.agent == c.agent
       case JobScope => a.job == c.job
  }

  function Reported(a: Attempt, l: Limit): Option<Amount> {
    match l
    case UsageLimit(unit, _, _) => if unit in a.usage then Some(a.usage[unit]) else None
    case SpendLimit(asset, network, _, _) =>
      if a.spend.Some? && a.spend.value.asset == asset && a.spend.value.network == network then Some(a.spend.value.amount) else None
  }

  /** Unfinished and unbilled attempts are charged at least their reservation. */
  function Charge(a: Attempt, l: Limit): nat {
    var reported := Reported(a, l);
    if reported.None? then l.reserve
    else
      var actual := UnitsOf(reported.value);
      var pendingBill := l.SpendLimit? && a.billing.Some? && !a.billing.value.Final?;
      if (a.state.Reserved? || a.state.Running? || a.state.Ambiguous? || pendingBill) && actual < l.reserve then l.reserve
      else actual
  }

  function Least(x: nat, y: nat): nat {
    if x < y then x else y
  }

  predicate Unresolved(a: Attempt) {
    a.state.Planned? || a.state.Reserved? || a.state.Running? || a.state.Ambiguous?
  }

  predicate SameWork(a: Context, c: Context) {
    a.session == c.session && a.job == c.job && a.task == c.task && a.agent == c.agent
  }

  predicate Blocks(a: Attempt, id: AttemptId) {
    a.id == id || (SameWork(a.id.context, id.context) && Unresolved(a))
  }

  /** Earlier attempts that count against a new one: everything in scope that was not cancelled. */
  function Prior(attempts: seq<Attempt>, c: Context, scope: Scope): seq<Attempt> {
    if attempts == [] then []
    else
      var last := attempts[|attempts| - 1];
      Prior(attempts[..|attempts| - 1], c, scope)
      + (if !last.state.Cancelled? && Matching(last.id.context, c, scope) then [last] else [])
  }

  function ChargeSum(attempts: seq<Attempt>, l: Limit): nat {
    if attempts == [] then 0 else ChargeSum(attempts[..|attempts| - 1], l) + Charge(attempts[|attempts| - 1], l)
  }

  predicate Fits(prior: seq<Attempt>, b: ScopeBudget) {
    |prior| < b.maxAttempts && forall l | l in b.limits :: ChargeSum(prior, l) + l.reserve <= l.max
  }

  predicate Admissible(attempts: seq<Attempt>, b: Budgets, c: Context) {
    && Fits(Prior(attempts, c, SessionScope), b.session)
    && Fits(Prior(attempts, c, AgentScope), b.agent)
    && Fits(Prior(attempts, c, JobScope), b.job)
  }

  // ------------------------------------------------------------- what is written

  datatype Refusal = PolicyChanged | AttemptBlocked | NotRunning

  /** The ledger files written by one locked change, in order, and its result. */
  datatype Trace<+T> = Trace(states: seq<Option<Book>>, result: Result<T, Refusal>)

  function NewAttempt(id: AttemptId, provider: string): Attempt {
    Attempt(id, provider, Planned, [Planned], map[], None, None, None)
  }

  function Moved(a: Attempt, state: State): Attempt {
    a.(state := state, history := a.history + [state])
  }

  function Opened(file: Option<Book>, b: Budgets): Result<Book, Refusal> {
    if file.None? then Ok(Book(b, []))
    else if file.value.budgets != b then Err(PolicyChanged)
    else Ok(file.value)
  }

  function With(book: Book, a: Attempt): Option<Book> {
    Some(book.(attempts := book.attempts + [a]))
  }

  /** Planned first; then denied, or reserved and only then running. The provider is called only after the last. */
  function Admit(file: Option<Book>, b: Budgets, id: AttemptId, provider: string): Trace<bool> {
    var book := Opened(file, b);
    if book.Err? then Trace([], Err(book.error))
    else if exists a | a in book.value.attempts :: Blocks(a, id) then Trace([], Err(AttemptBlocked))
    else
      var planned := NewAttempt(id, provider);
      var s1 := With(book.value, planned);
      if !Admissible(book.value.attempts, b, id.context) then
        Trace([s1, With(book.value, Moved(planned, Cancelled).(error := Some(BudgetDenied)))], Ok(false))
      else
        var reserved := Moved(planned, Reserved);
        Trace([s1, With(book.value, reserved), With(book.value, Moved(reserved, Running))], Ok(true))
  }

  datatype Outcome = Success | Failure | Unclear

  /** What the provider reported; malformed metadata is discarded as a whole. */
  datatype Report = Report(outcome: Outcome, usage: map<Unit, Amount>, spend: Option<Spend>, billing: Option<Billing>,
                           labelsValid: bool, cause: Option<Error>)

  predicate Clean(r: Report, offline: bool) {
    && r.labelsValid && |r.usage| <= 16
    && (forall u | u in r.usage :: Decimals.Units(r.usage[u]).Ok?)
    && (r.spend.Some? ==> !offline && Decimals.Units(r.spend.value.amount).Ok?)
    && (r.billing.Some? && offline ==> r.billing.value.Unsettled?)
  }

  /** The report as it will be recorded. */
  function Cleaned(r: Report, offline: bool): Report {
    if Clean(r, offline) then r.(cause :=
      if r.cause.Some? then r.cause
      else if r.outcome.Unclear? then Some(ProviderAmbiguous)
      else if r.outcome.Failure? then Some(ProviderError) else None)
    else Report(Unclear, map[], None, None, true, Some(InvalidMetadata))
  }

  function Billed(a: Attempt, r: Report): Attempt {
    a.(usage := if r.usage != map[] then r.usage else a.usage,
       spend := if r.spend.Some? then r.spend else a.spend,
       billing := if r.billing.Some? then r.billing else a.billing)
  }

  predicate OverReserve(a: Attempt, b: Budgets) {
    exists l | l in AllLimits(b) :: Charge(a, l) > l.reserve
  }

  predicate OtherAsset(b: Budgets, spend: Spend) {
    exists l | l in AllLimits(b) :: l.SpendLimit? && (l.asset != spend.asset || l.network != spend.network)
  }

  predicate Exceeds(a: Attempt, b: Budgets, r: Report) {
    OverReserve(a, b) || (r.spend.Some? && OtherAsset(b, r.spend.value))
  }

  function Completed(a: Attempt, b: Budgets, report: Report): Attempt {
    var r := Cleaned(report, a.id.context.offline);
    var billed := Billed(a, r);
    if Exceeds(billed, b, r) then Moved(billed, Ambiguous).(error := Some(ReservationExceeded))
    else
      Moved(billed, match r.outcome case Success => Succeeded case Failure => Failed case Unclear => Ambiguous)
        .(error := if r.cause.Some? then r.cause else billed.error)
  }

  function IndexOf(attempts: seq<Attempt>, id: AttemptId): (i: nat)
    ensures i <= |attempts| && (i < |attempts| ==> attempts[i].id == id)
    ensures forall k | 0 <= k < i :: attempts[k].id != id
  {
    if attempts == [] || attempts[0].id == id then 0 else 1 + IndexOf(attempts[1..], id)
  }

  function Complete(file: Option<Book>, b: Budgets, id: AttemptId, report: Report): Trace<()> {
    var book := Opened(file, b);
    if book.Err? then Trace([], Err(book.error))
    else
      var i := IndexOf(book.value.attempts, id);
      if i == |book.value.attempts| || !book.value.attempts[i].state.Running? then Trace([], Err(NotRunning))
      else
        var done := Completed(book.value.attempts[i], b, report);
        Trace([Some(book.value.(attempts := book.value.attempts[i := done]))], Ok(()))
  }

  // ------------------------------------------------------ what a report leads to

  /** Nothing that the report says was used is over a reservation, and it was paid in the budgeted asset. */
  predicate WithinReservations(b: Budgets, r: Report) {
    forall l | l in AllLimits(b) :: WithinReservation(l, r)
  }

  predicate WithinReservation(l: Limit, r: Report) {
    match l
    case UsageLimit(unit, _, reserve) => unit in r.usage ==> UnitsOf(r.usage[unit]) <= reserve
    case SpendLimit(asset, network, _, reserve) =>
      r.spend.Some? ==> r.spend.value.asset == asset && r.spend.value.network == network && UnitsOf(r.spend.value.amount) <= reserve
  }

  /** Nothing has been reported for the attempt yet. */
  predicate Unbilled(a: Attempt) {
    a.state.Running? && a.usage == map[] && a.spend.None? && a.billing.None? && a.error.None?
  }

  /** How a running attempt ends: as reported when the report can be trusted, unresolved otherwise. */
  predicate Settles(a: Attempt, b: Budgets, r: Report, done: Attempt) {
    var clean := Clean(r, a.id.context.offline);
    var fits := clean && WithinReservations(b, r);
    && done.id == a.id && done.provider == a.provider && done.history == a.history + [done.state]
    && (done.state.Succeeded? <==> fits && r.outcome.Success?)
    && (done.state.Failed? <==> fits && r.outcome.Failure?)
    && (done.state.Ambiguous? <==> !fits || r.outcome.Unclear?)
    && (clean ==> done.usage == r.usage && done.spend == r.spend && done.billing == r.billing)
    && (!clean ==> done.usage == map[] && done.spend.None? && done.billing.None? && done.error == Some(InvalidMetadata))
    && (clean && !fits ==> done.error == Some(ReservationExceeded))
    && (fits && r.cause.Some? ==> done.error == r.cause)
    && (fits && r.cause.None? ==>
          done.error == (if done.state.Succeeded? then None else if done.state.Failed? then Some(ProviderError) else Some(ProviderAmbiguous)))
  }

  /** The one attempt of this identifier has settled on the report; no other has changed. */
  predicate SettledAt(b: Budgets, r: Report, id: AttemptId, before: seq<Attempt>, after: seq<Attempt>, i: nat)
  {
    && i < |before| == |after|
    && before[i].id == id && before[i].state.Running? && after == before[i := after[i]]
    && (Unbilled(before[i]) ==> Settles(before[i], b, r, after[i]))
  }

  lemma OverReserveIsReported(a: Attempt, r: Report, l: Limit)
    requires Unbilled(a)
    ensures Charge(Billed(a, r), l) > l.reserve || (l.SpendLimit? && r.spend.Some? && (l.asset != r.spend.value.asset || l.network != r.spend.value.network))
      <==> !WithinReservation(l, r)
  {
    hide UnitsOf;
  }

  lemma CompletedSettles(a: Attempt, b: Budgets, r: Report)
    requires Unbilled(a)
    ensures Settles(a, b, r, Completed(a, b, r))
  {
    hide Clean, Charge, AllLimits, WithinReservation, Billed;
    var q := Cleaned(r, a.id.context.offline);
    var billed := Billed(a, q);
    BilledIsReported(a, q);
    forall l | l in AllLimits(b)
      ensures Charge(billed, l) > l.reserve || (l.SpendLimit? && q.spend.Some? && (l.asset != q.spend.value.asset || l.network != q.spend.value.network))
        <==> !WithinReservation(l, q)
      ensures Clean(r, a.id.context.offline) ==> (WithinReservation(l, q) <==> WithinReservation(l, r))
      ensures !Clean(r, a.id.context.offline) ==> WithinReservation(l, q)
    {
      OverReserveIsReported(a, q, l);
      SameFigures(l, q, r);
      NothingReported(l, q);
    }
    assert Exceeds(billed, b, q) <==> !WithinReservations(b, q);
  }

  lemma BilledIsReported(a: Attempt, r: Report)
    requires Unbilled(a)
    ensures var x := Billed(a, r);
      && x.usage == r.usage && x.spend == r.spend && x.billing == r.billing
      && x.id == a.id && x.provider == a.provider && x.history == a.history && x.error.None?
  {
  }

  lemma SameFigures(l: Limit, q: Report, r: Report)
    ensures q.usage == r.usage && q.spend == r.spend ==> (WithinReservation(l, q) <==> WithinReservation(l, r))
  {
  }

  lemma NothingReported(l: Limit, r: Report)
    ensures r.usage == map[] && r.spend.None? ==> WithinReservation(l, r)
  {
  }

  // ----------------------------------------------------------- runs, with crashes

  datatype Change =
    | Admission(budgets: Budgets, id: AttemptId, provider: string)
    | Completion(budgets: Budgets, id: AttemptId, report: Report)

  function StatesOf(file: Option<Book>, c: Change): seq<Option<Book>> {
    match c
    case Admission(b, id, provider) => Admit(file, b, id, provider).states
    case Completion(b, id, report) => Complete(file, b, id, report).states
  }

  /** A change cut off after `cut` writes. */
  datatype Attempted = Attempted(change: Change, cut: nat)

  function After(file: Option<Book>, x: Attempted): Option<Book> {
    var states := StatesOf(file, x.change);
    var done := if x.cut <= |states| then states[..x.cut] else states;
    if done == [] then file else done[|done| - 1]
  }

  function AfterAll(runs: seq<Attempted>): Option<Book> {
    if runs == [] then None else After(AfterAll(runs[..|runs| - 1]), runs[|runs| - 1])
  }

  // ----------------------------------------------------------------- the ledger file

  datatype UsageKey = UsageKey(provider: string, offline: bool, unit: Unit)
  datatype SpendKey = SpendKey(network: string, asset: string)

  predicate HasUsage(a: Attempt, k: UsageKey) {
    a.provider == k.provider && a.id.context.offline == k.offline && k.unit in a.usage
  }

  predicate HasSpend(a: Attempt, k: SpendKey) {
    a.spend.Some? && a.spend.value.network == k.network && a.spend.value.asset == k.asset
  }

  /** What the attempts of a report recorded of one unit, or of one asset, added exactly. */
  function UsageTotal(rows: seq<Attempt>, k: UsageKey): nat {
    if rows == [] then 0
    else
      var a := rows[|rows| - 1];
      UsageTotal(rows[..|rows| - 1], k) + (if HasUsage(a, k) then UnitsOf(a.usage[k.unit]) else 0)
  }

  function SpendTotal(rows: seq<Attempt>, k: SpendKey): nat {
    if rows == [] then 0
    else
      var a := rows[|rows| - 1];
      SpendTotal(rows[..|rows| - 1], k) + (if HasSpend(a, k) then UnitsOf(a.spend.value.amount) else 0)
  }

  ghost predicate UsageTotals(rows: seq<Attempt>, totals: map<UsageKey, nat>) {
    forall k ::
      && (k in totals <==> exists a :: a in rows && HasUsage(a, k))
      && (k in totals ==> totals[k] == UsageTotal(rows, k))
      && (k !in totals ==> UsageTotal(rows, k) == 0)
  }

  ghost predicate SpendTotals(rows: seq<Attempt>, totals: map<SpendKey, nat>) {
    forall k ::
      && (k in totals <==> exists a :: a in rows && HasSpend(a, k))
      && (k in totals ==> totals[k] == SpendTotal(rows, k))
      && (k !in totals ==> SpendTotal(rows, k) == 0)
  }

  datatype Filter = Filter(session: Option<string>, agent: Option<string>)

  predicate Selects(f: Filter, a: Attempt) {
    (f.session.Some? ==> a.id.context.session == f.session.value) && (f.agent.Some? ==> a.id.context.agent == f.agent.value)
  }

  function Selected(f: Filter, attempts: seq<Attempt>): seq<Attempt> {
    if attempts == [] then []
    else
      Selected(f, attempts[..|attempts| - 1])
      + (if Selects(f, attempts[|attempts| - 1]) then [attempts[|attempts| - 1]] else [])
  }

  class InferenceLedger {
    var file: Option<Book>
    ghost var history: seq<Option<Book>>

    constructor (file: Option<Book>)
      ensures this.file == file && history == []
    {
      this.file, history := file, [];
    }

    /** Exactly `states` were written, one after the other. */
    ghost predicate Wrote(before: Option<Book>, past: seq<Option<Book>>, states: seq<Option<Book>>)
      reads this
    {
      history == past + states && file == if states == [] then before else states[|states| - 1]
    }

    method Save(book: Book)
      modifies this
      ensures file == Some(book) && history == old(history) + [file]
    {
      file := Some(book);
      history := history + [file];
    }

    /** The filter, and the two checks over what it selects, for one scope. */
    method CheckScope(attempts: seq<Attempt>, c: Context, scope: Scope, b: ScopeBudget) returns (fits: bool)
      ensures fits <==> Fits(Prior(attempts, c, scope), b)
    {
      var prior: seq<Attempt> := [];
      for k := 0 to |attempts|
        invariant prior == Prior(attempts[..k], c, scope)
      {
        assert attempts[..k + 1][..k] == attempts[..k];
        if !attempts[k].state.Cancelled? && Matching(attempts[k].id.context, c, scope) {
          prior := prior + [attempts[k]];
        }
      }
      assert attempts[..|attempts|] == attempts;
      fits := |prior| < b.maxAttempts;
      for k := 0 to |b.limits|
        invariant fits <==> |prior| < b.maxAttempts && forall i | 0 <= i < k :: ChargeSum(prior, b.limits[i]) + b.limits[i].reserve <= b.limits[i].max
      {
        var sum := SumCharges(prior, b.limits[k]);
        if sum + b.limits[k].reserve > b.limits[k].max {
          fits := false;
        }
      }
    }

    method SumCharges(prior: seq<Attempt>, l: Limit) returns (sum: nat)
      ensures sum == ChargeSum(prior, l)
    {
      sum := 0;
      for k := 0 to |prior|
        invariant sum == ChargeSum(prior[..k], l)
      {
        assert prior[..k + 1][..k] == prior[..k];
        sum := sum + Charge(prior[k], l);
      }
      assert prior[..|prior|] == prior;
    }

    method CheckBudgets(attempts: seq<Attempt>, c: Context, b: Budgets) returns (fits: bool)
      ensures fits <==> Admissible(attempts, b, c)
    {
      hide Fits;
      fits := CheckScope(attempts, c, SessionScope, b.session);
      if fits {
        fits := CheckScope(attempts, c, AgentScope, b.agent);
      }
      if fits {
        fits := CheckScope(attempts, c, JobScope, b.job);
      }
    }

    method AdmitAttempt(b: Budgets, id: AttemptId, provider: string) returns (r: Result<bool, Refusal>)
      modifies this
      ensures var t := Admit(old(file), b, id, provider); Wrote(old(file), old(history), t.states) && r == t.result
      ensures var before := if old(file).None? then [] else old(file).value.attempts;
        && (r == Err(PolicyChanged) <==> old(file).Some? && old(file).value.budgets != b)
        && (r.Err? ==> file == old(file))
        && (r == Ok(true) ==> file == Some(Book(b, before + [
              Attempt(id, provider, Running, [Planned, Reserved, Running], map[], None, None, None)])))
        && (r == Ok(false) ==> file == Some(Book(b, before + [
              Attempt(id, provider, Cancelled, [Planned, Cancelled], map[], None, None, Some(BudgetDenied))])))
    {
      hide Admissible, Blocks;
      var found := Opened(file, b);
      if found.Err? {
        return Err(found.error);
      }
      var book := found.value;
      if exists a | a in book.attempts :: Blocks(a, id) {
        return Err(AttemptBlocked);
      }
      var attempt := NewAttempt(id, provider);
      assert [Planned] + [Cancelled] == [Planned, Cancelled];
      assert ([Planned] + [Reserved]) + [Running] == [Planned, Reserved, Running];
      Save(book.(attempts := book.attempts + [attempt]));
      var fits := CheckBudgets(book.attempts, id.context, b);
      if !fits {
        attempt := Moved(attempt, Cancelled).(error := Some(BudgetDenied));
        Save(book.(attempts := book.attempts + [attempt]));
        return Ok(false);
      }
      attempt := Moved(attempt, Reserved);
      Save(book.(attempts := book.attempts + [attempt]));
      attempt := Moved(attempt, Running);
      Save(book.(attempts := book.attempts + [attempt]));
      r := Ok(true);
    }

    method CompleteAttempt(b: Budgets, id: AttemptId, report: Report) returns (r: Result<(), Refusal>)
      modifies this
      ensures var t := Complete(old(file), b, id, report); Wrote(old(file), old(history), t.states) && r == t.result
      ensures r.Err? ==> file == old(file)
      ensures r.Ok? ==> old(file).Some? && old(file).value.budgets == b && file.Some? && file.value.budgets == b
      ensures r.Ok? ==> exists i :: SettledAt(b, report, id, old(file).value.attempts, file.value.attempts, i)
    {
      hide Completed, Settles;
      var found := Opened(file, b);
      if found.Err? {
        return Err(found.error);
      }
      var book := found.value;
      var i := IndexOf(book.attempts, id);
      if i == |book.attempts| || !book.attempts[i].state.Running? {
        return Err(NotRunning);
      }
      if Unbilled(book.attempts[i]) {
        CompletedSettles(book.attempts[i], b, report);
      }
      Save(book.(attempts := book.attempts[i := Completed(book.attempts[i], b, report)]));
      assert SettledAt(b, report, id, book.attempts, file.value.attempts, i);
      r := Ok(());
    }

    /** Totals of what the selected attempts recorded, added in exact fixed-point units and printed as decimals. */
    method Summary(f: Filter) returns (rows: seq<Attempt>, usage: map<UsageKey, string>, spend: map<SpendKey, string>)
      ensures rows == (if file.None? then [] else Selected(f, file.value.attempts))
      ensures forall k :: k in usage <==> exists a :: a in rows && HasUsage(a, k)
      ensures forall k | k in usage :: usage[k] == Decimals.Decimal(UsageTotal(rows, k))
      ensures forall k :: k in spend <==> exists a :: a in rows && HasSpend(a, k)
      ensures forall k | k in spend :: spend[k] == Decimals.Decimal(SpendTotal(rows, k))
    {
      hide Selected, Decimals.Decimal, UsageTotal, SpendTotal;
      rows := Select(f);
      var totals := TotalUsage(rows);
      var paid := TotalSpend(rows);
      usage := map k | k in totals :: Decimals.Decimal(totals[k]);
      spend := map k | k in paid :: Decimals.Decimal(paid[k]);
    }

    method Select(f: Filter) returns (rows: seq<Attempt>)
      ensures rows == (if file.None? then [] else Selected(f, file.value.attempts))
    {
      rows := [];
      var attempts := if file.None? then [] else file.value.attempts;
      for k := 0 to |attempts|
        invariant rows == Selected(f, attempts[..k])
      {
        assert attempts[..k + 1][..k] == attempts[..k];
        if Selects(f, attempts[k]) {
          rows := rows + [attempts[k]];
        }
      }
      assert attempts[..|attempts|] == attempts;
    }

    method TotalUsage(rows: seq<Attempt>) returns (totals: map<UsageKey, nat>)
      ensures UsageTotals(rows, totals)
    {
      hide UnitsOf;
      totals := map[];
      for i := 0 to |rows|
        invariant UsageTotals(rows[..i], totals)
      {
        assert rows[..i + 1][..i] == rows[..i];
        totals := AddUsage(rows[..i], rows[i], totals);
        assert rows[..i] + [rows[i]] == rows[..i + 1];
      }
      assert rows[..|rows|] == rows;
    }

    method AddUsage(rows: seq<Attempt>, a: Attempt, before: map<UsageKey, nat>) returns (totals: map<UsageKey, nat>)
      requires UsageTotals(rows, before)
      ensures UsageTotals(rows + [a], totals)
    {
      hide UnitsOf;
      totals := before;
      var todo := a.usage.Keys;
      while todo != {}
        invariant todo <= a.usage.Keys
        invariant forall k :: k in totals <==> k in before || (HasUsage(a, k) && k.unit !in todo)
        invariant forall k | k in totals ::
          totals[k] == (if k in before then before[k] else 0) + (if HasUsage(a, k) && k.unit !in todo then UnitsOf(a.usage[k.unit]) else 0)
        decreases todo
      {
        var unit :| unit in todo;
        var key := UsageKey(a.provider, a.id.context.offline, unit);
        totals := totals[key := (if key in totals then totals[key] else 0) + UnitsOf(a.usage[unit])];
        todo := todo - {unit};
      }
      UsageSnoc(rows, a, before, totals);
    }

    method TotalSpend(rows: seq<Attempt>) returns (totals: map<SpendKey, nat>)
      ensures SpendTotals(rows, totals)
    {
      hide UnitsOf;
      totals := map[];
      for i := 0 to |rows|
        invariant SpendTotals(rows[..i], totals)
      {
        assert rows[..i + 1][..i] == rows[..i];
        assert rows[..i] + [rows[i]] == rows[..i + 1];
        ghost var before := totals;
        if rows[i].spend.Some? {
          var key := SpendKey(rows[i].spend.value.network, rows[i].spend.value.asset);
          totals := totals[key := (if key in totals then totals[key] else 0) + UnitsOf(rows[i].spend.value.amount)];
        }
        SpendSnoc(rows[..i], rows[i], before, totals);
      }
      assert rows[..|rows|] == rows;
    }
  }

  lemma UsageSnoc(rows: seq<Attempt>, a: Attempt, before: map<UsageKey, nat>, totals: map<UsageKey, nat>)
    requires UsageTotals(rows, before)
    requires forall k :: k in totals <==> k in before || HasUsage(a, k)
    requires forall k | k in totals ::
      totals[k] == (if k in before then before[k] else 0) + (if HasUsage(a, k) then UnitsOf(a.usage[k.unit]) else 0)
    ensures UsageTotals(rows + [a], totals)
  {
    hide UnitsOf, HasUsage;
    assert (rows + [a])[..|rows|] == rows;
    forall k
      ensures k in totals <==> exists x :: x in rows + [a] && HasUsage(x, k)
    {
      if k in before {
        var x :| x in rows && HasUsage(x, k);
        assert x in rows + [a];
      }
      assert a in rows + [a];
    }
  }

  lemma SpendSnoc(rows: seq<Attempt>, a: Attempt, before: map<SpendKey, nat>, totals: map<SpendKey, nat>)
    requires SpendTotals(rows, before)
    requires forall k :: k in totals <==> k in before || HasSpend(a, k)
    requires forall k | k in totals ::
      totals[k] == (if k in before then before[k] else 0) + (if HasSpend(a, k) then UnitsOf(a.spend.value.amount) else 0)
    ensures SpendTotals(rows + [a], totals)
  {
    hide UnitsOf, HasSpend;
    assert (rows + [a])[..|rows|] == rows;
    forall k
      ensures k in totals <==> exists x :: x in rows + [a] && HasSpend(x, k)
    {
      if k in before {
        var x :| x in rows && HasSpend(x, k);
        assert x in rows + [a];
      }
      assert a in rows + [a];
    }
  }
}
