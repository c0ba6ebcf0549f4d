/** The bounds that hold in every ledger that crashed and complete changes can produce. */
module LedgerSafety {
  import opened Wrappers
  import opened Ledger
  import Decimals

  // ----------------------------------------------------------------------- sums

  ghost function Sum(s: seq<Attempt>, f: Attempt -> nat): nat {
    if s == [] then 0 else Sum(s[..|s| - 1], f) + f(s[|s| - 1])
  }

  lemma {:induction false} SumSnoc(s: seq<Attempt>, a: Attempt, f: Attempt -> nat)
    ensures Sum(s + [a], f) == Sum(s, f) + f(a)
  {
    assert (s + [a])[..|s|] == s;
  }

  lemma {:induction false} SumUpdate(s: seq<Attempt>, i: nat, a: Attempt, f: Attempt -> nat)
    requires i < |s|
    ensures Sum(s[i := a], f) + f(s[i]) == Sum(s, f) + f(a)
    decreases |s|
  {
    var n := |s| - 1;
    if i < n {
      assert s[i := a][..n] == s[..n][i := a];
      SumUpdate(s[..n], i, a, f);
    } else {
      assert s[i := a][..n] == s[..n];
    }
  }

  lemma {:induction false} SumAdds(s: seq<Attempt>, f: Attempt -> nat, g: Attempt -> nat, h: Attempt -> nat)
    requires forall a | a in s :: f(a) == g(a) + h(a)
    ensures Sum(s, f) == Sum(s, g) + Sum(s, h)
    decreases |s|
  {
    if s != [] {
      SumAdds(s[..|s| - 1], f, g, h);
    }
  }

  // ------------------------------------------------------------------- the bounds

  /** Neither merely planned nor cancelled, and in scope. */
  predicate Counts(a: Attempt, c: Context, scope: Scope) {
    !a.state.Planned? && !a.state.Cancelled? && Matching(a.id.context, c, scope)
  }

  ghost function One(c: Context, scope: Scope): Attempt -> nat {
    a => if Counts(a, c, scope) then 1 else 0
  }

  ghost function Held(c: Context, scope: Scope, l: Limit): Attempt -> nat {
    a => if Counts(a, c, scope) then Least(Charge(a, l), l.reserve) else 0
  }

  ghost function Full(c: Context, scope: Scope, l: Limit): Attempt -> nat {
    a => if Counts(a, c, scope) then Charge(a, l) else 0
  }

  /** By how much flagged attempts went over their reservation; other attempts contribute nothing. */
  ghost function Overrun(c: Context, scope: Scope, l: Limit): Attempt -> nat {
    a => if Counts(a, c, scope) && a.error == Some(ReservationExceeded) && Charge(a, l) > l.reserve
         then Charge(a, l) - l.reserve else 0
  }

  ghost predicate WithinBudget(book: Book, c: Context, scope: Scope) {
    && Sum(book.attempts, One(c, scope)) <= BudgetOf(book.budgets, scope).maxAttempts
    && forall l | l in BudgetOf(book.budgets, scope).limits :: Sum(book.attempts, Held(c, scope, l)) <= l.max
  }

  function Path(state: State): seq<State> {
    match state
    case Planned => [Planned]
    case Cancelled => [Planned, Cancelled]
    case Reserved => [Planned, Reserved]
    case Running => [Planned, Reserved, Running]
    case _ => [Planned, Reserved, Running, state]
  }

  /** What loading a ledger demands of one attempt, and that only flagged attempts exceed a reservation. */
  ghost predicate AttemptFits(b: Budgets, a: Attempt) {
    && a.history == Path(a.state)
    && (a.state.Planned? || a.state.Reserved? || a.state.Running? || a.state.Cancelled? ==>
          a.usage == map[] && a.spend.None? && a.billing.None? && a.error == if a.state.Cancelled? then Some(BudgetDenied) else None)
    && (forall u | u in a.usage :: Decimals.Units(a.usage[u]).Ok?)
    && (a.spend.Some? ==> Decimals.Units(a.spend.value.amount).Ok? && !a.id.context.offline)
    && (forall l | l in AllLimits(b) && Charge(a, l) > l.reserve :: a.error == Some(ReservationExceeded) && a.state.Ambiguous?)
  }

  ghost predicate Apart(a: Attempt, b: Attempt) {
    a.id != b.id && !(Unresolved(a) && Unresolved(b) && SameWork(a.id.context, b.id.context))
  }

  ghost predicate BookFits(book: Book) {
    && (forall a | a in book.attempts :: AttemptFits(book.budgets, a))
    && (forall i, j | 0 <= i < j < |book.attempts| :: Apart(book.attempts[i], book.attempts[j]))
    && (forall c, scope :: WithinBudget(book, c, scope))
  }

  ghost predicate FileFits(file: Option<Book>) {
    file.Some? ==> BookFits(file.value)
  }

  // ------------------------------------------------------------------- admission

  lemma MatchingIsEquivalence(a: Context, c: Context, d: Context, scope: Scope)
    requires Matching(c, d, scope)
    ensures Matching(a, c, scope) <==> Matching(a, d, scope)
  {
  }

  /** The check before a reservation looks at no less than what is bounded. */
  lemma {:induction false} PriorCovers(attempts: seq<Attempt>, c: Context, d: Context, scope: Scope, l: Limit)
    requires Matching(c, d, scope)
    ensures Sum(attempts, Held(d, scope, l)) <= ChargeSum(Prior(attempts, c, scope), l)
    ensures Sum(attempts, One(d, scope)) <= |Prior(attempts, c, scope)|
    decreases |attempts|
  {
    if attempts != [] {
      var rest, last := attempts[..|attempts| - 1], attempts[|attempts| - 1];
      PriorCovers(rest, c, d, scope, l);
      MatchingIsEquivalence(last.id.context, c, d, scope);
      hide Matching, Charge;
      var prior := Prior(rest, c, scope);
      assert (prior + [last])[..|prior|] == prior && prior + [] == prior;
      assert ChargeSum(prior + [last], l) == ChargeSum(prior, l) + Charge(last, l);
    }
  }

  /** An attempt that reserves nothing yet, or nothing any more, leaves every bound as it is. */
  lemma IdleKeepsBudget(book: Book, a: Attempt, c: Context, scope: Scope)
    requires WithinBudget(book, c, scope) && (a.state.Planned? || a.state.Cancelled?)
    ensures WithinBudget(book.(attempts := book.attempts + [a]), c, scope)
  {
    SumSnoc(book.attempts, a, One(c, scope));
    forall l | l in BudgetOf(book.budgets, scope).limits
      ensures Sum(book.attempts + [a], Held(c, scope, l)) <= l.max
    {
      SumSnoc(book.attempts, a, Held(c, scope, l));
    }
  }

  lemma {:induction false} ReserveKeepsBudget(book: Book, a: Attempt, c: Context, scope: Scope)
    requires WithinBudget(book, c, scope)
    requires Fits(Prior(book.attempts, a.id.context, scope), BudgetOf(book.budgets, scope))
    ensures WithinBudget(book.(attempts := book.attempts + [a]), c, scope)
  {
    hide Charge, Prior;
    SumSnoc(book.attempts, a, One(c, scope));
    if Matching(a.id.context, c, scope) {
      forall l | l in BudgetOf(book.budgets, scope).limits
        ensures Sum(book.attempts + [a], Held(c, scope, l)) <= l.max
      {
        SumSnoc(book.attempts, a, Held(c, scope, l));
        PriorCovers(book.attempts, a.id.context, c, scope, l);
      }
      PriorCovers(book.attempts, a.id.context, c, scope, UsageLimit("", 0, 0));
    } else {
      forall l | l in BudgetOf(book.budgets, scope).limits
        ensures Sum(book.attempts + [a], Held(c, scope, l)) <= l.max
      {
        SumSnoc(book.attempts, a, Held(c, scope, l));
      }
    }
  }

  lemma PlannedFits(b: Budgets, id: AttemptId, provider: string)
    ensures var a := NewAttempt(id, provider);
      && AttemptFits(b, a) && AttemptFits(b, Moved(a, Cancelled).(error := Some(BudgetDenied)))
      && AttemptFits(b, Moved(a, Reserved)) && AttemptFits(b, Moved(Moved(a, Reserved), Running))
  {
  }

  lemma NewIsApart(attempts: seq<Attempt>, a: Attempt)
    requires forall x | x in attempts :: !Blocks(x, a.id)
    ensures forall i | 0 <= i < |attempts| :: Apart(attempts[i], a)
  {
    forall i | 0 <= i < |attempts|
      ensures Apart(attempts[i], a)
    {
      assert attempts[i] in attempts && !Blocks(attempts[i], a.id);
    }
  }

  /** A book stays sound with one more attempt that fits by itself, is apart from the rest and within budget. */
  lemma Extended(book: Book, a: Attempt)
    requires BookFits(book) && AttemptFits(book.budgets, a) && forall x | x in book.attempts :: !Blocks(x, a.id)
    requires a.state.Planned? || a.state.Cancelled? || Admissible(book.attempts, book.budgets, a.id.context)
    ensures BookFits(book.(attempts := book.attempts + [a]))
  {
    hide AttemptFits, WithinBudget, Blocks, Prior, Fits;
    var grown := book.(attempts := book.attempts + [a]);
    NewIsApart(book.attempts, a);
    hide Apart;
    forall c, scope
      ensures WithinBudget(grown, c, scope)
    {
      if a.state.Planned? || a.state.Cancelled? {
        IdleKeepsBudget(book, a, c, scope);
      } else {
        AdmissibleFits(book, a.id.context, scope);
        ReserveKeepsBudget(book, a, c, scope);
      }
    }
  }

  lemma {:induction false} AdmissibleFits(book: Book, c: Context, scope: Scope)
    requires Admissible(book.attempts, book.budgets, c)
    ensures Fits(Prior(book.attempts, c, scope), BudgetOf(book.budgets, scope))
  {
  }

  lemma EmptyFits(b: Budgets)
    ensures BookFits(Book(b, []))
  {
  }

  lemma AdmitKeepsFits(file: Option<Book>, b: Budgets, id: AttemptId, provider: string, k: nat)
    requires FileFits(file) && k < |Admit(file, b, id, provider).states|
    ensures FileFits(Admit(file, b, id, provider).states[k])
  {
    hide BookFits, AttemptFits, Blocks, Admissible;
    EmptyFits(b);
    var book := Opened(file, b).value;
    var planned := NewAttempt(id, provider);
    PlannedFits(book.budgets, id, provider);
    Extended(book, planned);
    if Admissible(book.attempts, b, id.context) {
      Extended(book, Moved(planned, Reserved));
      Extended(book, Moved(Moved(planned, Reserved), Running));
    } else {
      Extended(book, Moved(planned, Cancelled).(error := Some(BudgetDenied)));
    }
  }

  // ------------------------------------------------------------------ completion

  lemma CleanedIsValid(r: Report, offline: bool)
    ensures var q := Cleaned(r, offline);
      && (forall u | u in q.usage :: Decimals.Units(q.usage[u]).Ok?)
      && (q.spend.Some? ==> Decimals.Units(q.spend.value.amount).Ok? && !offline)
  {
    hide Decimals.Units;
  }

  /** Leaving the running state never raises a charge. */
  lemma ChargeFalls(a: Attempt, done: Attempt, l: Limit)
    requires a.state.Running? && done.usage == a.usage && done.spend == a.spend && done.billing == a.billing
    ensures Charge(done, l) <= Charge(a, l)
  {
    hide UnitsOf;
  }

  lemma BilledFits(b: Budgets, a: Attempt, r: Report)
    requires AttemptFits(b, a) && a.state.Running?
    ensures var billed := Billed(a, Cleaned(r, a.id.context.offline));
      && billed.state.Running? && billed.history == Path(Running) && billed.id == a.id
      && (forall u | u in billed.usage :: Decimals.Units(billed.usage[u]).Ok?)
      && (billed.spend.Some? ==> Decimals.Units(billed.spend.value.amount).Ok? && !a.id.context.offline)
  {
    hide Cleaned, Charge, AllLimits, Decimals.Units;
    CleanedIsValid(r, a.id.context.offline);
  }

  lemma NotOverReserve(b: Budgets, billed: Attempt, done: Attempt)
    requires !OverReserve(billed, b) && billed.state.Running?
    requires done.usage == billed.usage && done.spend == billed.spend && done.billing == billed.billing
    ensures forall l | l in AllLimits(b) :: Charge(done, l) <= l.reserve
  {
    forall l | l in AllLimits(b)
      ensures Charge(done, l) <= l.reserve
    {
      ChargeFalls(billed, done, l);
    }
  }

  lemma CompletedFits(b: Budgets, a: Attempt, r: Report)
    requires AttemptFits(b, a) && a.state.Running?
    ensures AttemptFits(b, Completed(a, b, r)) && Completed(a, b, r).id == a.id
    ensures !Completed(a, b, r).state.Planned? && !Completed(a, b, r).state.Cancelled?
  {
    hide Cleaned, Billed, AllLimits, Charge, OverReserve, OtherAsset, Decimals.Units;
    BilledFits(b, a, r);
    var q := Cleaned(r, a.id.context.offline);
    var done, billed := Completed(a, b, r), Billed(a, q);
    if !OverReserve(billed, b) {
      NotOverReserve(b, billed, done);
    }
  }

  /** While an attempt runs its whole reservation is held, so completing it can only release. */
  lemma CompletionReleases(b: Budgets, a: Attempt, r: Report, c: Context, scope: Scope, l: Limit)
    requires AttemptFits(b, a) && a.state.Running?
    ensures Held(c, scope, l)(Completed(a, b, r)) <= Held(c, scope, l)(a)
    ensures One(c, scope)(Completed(a, b, r)) == One(c, scope)(a)
  {
    CompletedFits(b, a, r);
    hide Completed, Matching;
  }

  lemma CompletionKeepsBudget(book: Book, i: nat, r: Report, c: Context, scope: Scope)
    requires WithinBudget(book, c, scope) && i < |book.attempts|
    requires AttemptFits(book.budgets, book.attempts[i]) && book.attempts[i].state.Running?
    ensures WithinBudget(book.(attempts := book.attempts[i := Completed(book.attempts[i], book.budgets, r)]), c, scope)
  {
    hide Completed, AttemptFits, Counts, Charge;
    var a := book.attempts[i];
    var done := Completed(a, book.budgets, r);
    CompletionReleases(book.budgets, a, r, c, scope, UsageLimit("", 0, 0));
    SumUpdate(book.attempts, i, done, One(c, scope));
    forall l | l in BudgetOf(book.budgets, scope).limits
      ensures Sum(book.attempts[i := done], Held(c, scope, l)) <= l.max
    {
      CompletionReleases(book.budgets, a, r, c, scope, l);
      SumUpdate(book.attempts, i, done, Held(c, scope, l));
    }
  }

  lemma CompleteKeepsFits(file: Option<Book>, b: Budgets, id: AttemptId, r: Report, k: nat)
    requires FileFits(file) && k < |Complete(file, b, id, r).states|
    ensures FileFits(Complete(file, b, id, r).states[k])
  {
    hide AttemptFits, WithinBudget, Completed;
    EmptyFits(b);
    var book := Opened(file, b).value;
    var i := IndexOf(book.attempts, id);
    var done := Completed(book.attempts[i], b, r);
    CompletedFits(b, book.attempts[i], r);
    var updated := book.(attempts := book.attempts[i := done]);
    forall c, scope
      ensures WithinBudget(updated, c, scope)
    {
      CompletionKeepsBudget(book, i, r, c, scope);
    }
  }

  // ------------------------------------------------------------------- theorems

  lemma AfterFits(file: Option<Book>, x: Attempted)
    requires FileFits(file)
    ensures FileFits(After(file, x))
  {
    hide FileFits, Admit, Complete;
    var states := StatesOf(file, x.change);
    var n := if x.cut <= |states| then x.cut else |states|;
    if n > 0 {
      match x.change
      case Admission(b, id, provider) => AdmitKeepsFits(file, b, id, provider, n - 1);
      case Completion(b, id, report) => CompleteKeepsFits(file, b, id, report, n - 1);
    }
  }

  lemma {:induction false} EveryLedgerFits(runs: seq<Attempted>)
    ensures FileFits(AfterAll(runs))
    decreases |runs|
  {
    hide BookFits, After;
    if runs != [] {
      EveryLedgerFits(runs[..|runs| - 1]);
      AfterFits(AfterAll(runs[..|runs| - 1]), runs[|runs| - 1]);
    }
  }

  /** Whatever crashes happened: no scope ever holds more attempts or more reserved units than its budget. */
  lemma {:induction false} BudgetsHold(runs: seq<Attempted>, c: Context, scope: Scope)
    requires AfterAll(runs).Some?
    ensures var book := AfterAll(runs).value; var budget := BudgetOf(book.budgets, scope);
      && Sum(book.attempts, One(c, scope)) <= budget.maxAttempts
      && forall l | l in budget.limits :: Sum(book.attempts, Held(c, scope, l)) <= l.max
  {
    EveryLedgerFits(runs);
    assert WithinBudget(AfterAll(runs).value, c, scope);
  }

  /** Actual charges go over a limit by at most what the flagged attempts went over their reservations. */
  lemma {:induction false} OverrunsAreFlagged(runs: seq<Attempted>, c: Context, scope: Scope, l: Limit)
    requires AfterAll(runs).Some? && l in BudgetOf(AfterAll(runs).value.budgets, scope).limits
    ensures var book := AfterAll(runs).value;
      Sum(book.attempts, Full(c, scope, l)) <= l.max + Sum(book.attempts, Overrun(c, scope, l))
  {
    var book := AfterAll(runs).value;
    BudgetsHold(runs, c, scope);
    EveryLedgerFits(runs);
    forall a | a in book.attempts
      ensures Full(c, scope, l)(a) == Held(c, scope, l)(a) + Overrun(c, scope, l)(a)
    {
      assert AttemptFits(book.budgets, a) && l in AllLimits(book.budgets);
      hide Charge;
    }
    SumAdds(book.attempts, Full(c, scope, l), Held(c, scope, l), Overrun(c, scope, l));
  }

  /** One task of one agent has at most one attempt that is not settled, and no two attempts share an identifier. */
  lemma {:induction false} OneUnresolvedPerTask(runs: seq<Attempted>, i: nat, j: nat)
    requires AfterAll(runs).Some? && i < j < |AfterAll(runs).value.attempts|
    ensures var a, b := AfterAll(runs).value.attempts[i], AfterAll(runs).value.attempts[j];
      a.id != b.id && !(Unresolved(a) && Unresolved(b) && SameWork(a.id.context, b.id.context))
  {
    EveryLedgerFits(runs);
    assert Apart(AfterAll(runs).value.attempts[i], AfterAll(runs).value.attempts[j]);
  }

  /** Every attempt written has the history its state demands and amounts that parse, as reading it back requires. */
  lemma {:induction false} EveryAttemptReloads(runs: seq<Attempted>, a: Attempt)
    requires AfterAll(runs).Some? && a in AfterAll(runs).value.attempts
    ensures AttemptFits(AfterAll(runs).value.budgets, a)
  {
    EveryLedgerFits(runs);
  }

  // ------------------------------------------------------- nothing is ever forgotten

  /** Attempts keep their place and identity and only move on along their path; the policy stays. */
  ghost predicate Kept(f: Option<Book>, g: Option<Book>) {
    f.Some? ==>
      && g.Some? && g.value.budgets == f.value.budgets && |f.value.attempts| <= |g.value.attempts|
      && forall i | 0 <= i < |f.value.attempts| ::
           && f.value.attempts[i].id == g.value.attempts[i].id
           && (f.value.attempts[i] == g.value.attempts[i] || f.value.attempts[i].state.Running?)
           && f.value.attempts[i].history <= g.value.attempts[i].history
  }

  lemma StepKeeps(f: Option<Book>, x: Attempted)
    ensures Kept(f, After(f, x))
  {
    hide Admissible, Blocks, Cleaned, Exceeds;
  }

  lemma KeptJoins(f: Option<Book>, g: Option<Book>, h: Option<Book>)
    requires Kept(f, g) && Kept(g, h)
    ensures Kept(f, h)
  {
  }

  lemma KeptSame(f: Option<Book>)
    ensures Kept(f, f)
  {
  }

  lemma {:induction false} LedgersAreKept(runs: seq<Attempted>, more: seq<Attempted>)
    ensures Kept(AfterAll(runs), AfterAll(runs + more))
    decreases |more|
  {
    hide After, Kept;
    var all := runs + more;
    if more == [] {
      assert all == runs;
      KeptSame(AfterAll(runs));
    } else {
      var before, last := more[..|more| - 1], more[|more| - 1];
      assert all[..|all| - 1] == runs + before && all[|all| - 1] == last;
      LedgersAreKept(runs, before);
      StepKeeps(AfterAll(runs + before), last);
      KeptJoins(AfterAll(runs), AfterAll(runs + before), AfterAll(all));
    }
  }

  // ------------------------------------------------------------------- exactness

  /** What one earlier attempt weighs against a limit: its reservation until its actual cost is known and final. */
  lemma ChargeIsExact(a: Attempt, l: Limit)
    ensures var open := a.state.Reserved? || a.state.Running? || a.state.Ambiguous?;
      && (l.UsageLimit? ==>
            Charge(a, l) == if l.unit !in a.usage then l.reserve
                            else if open then Most(UnitsOf(a.usage[l.unit]), l.reserve) else UnitsOf(a.usage[l.unit]))
      && (l.SpendLimit? ==>
            Charge(a, l) == if a.spend.None? || (a.spend.value.asset, a.spend.value.network) != (l.asset, l.network) then l.reserve
                            else if open || a.billing == Some(Unsettled) || a.billing == Some(Pending)
                            then Most(UnitsOf(a.spend.value.amount), l.reserve) else UnitsOf(a.spend.value.amount))
  {
    hide UnitsOf;
  }

  function Most(x: nat, y: nat): nat {
    if x < y then y else x
  }

  predicate Weighs(a: Attempt, c: Context, scope: Scope) {
    !a.state.Cancelled? && a.id.context.session == c.session
    && (scope.AgentScope? ==> a.id.context.agent == c.agent) && (scope.JobScope? ==> a.id.context.job == c.job)
  }

  ghost function Weight(c: Context, scope: Scope, l: Limit): Attempt -> nat {
    a => if Weighs(a, c, scope) then Charge(a, l) else 0
  }

  ghost function Heads(c: Context, scope: Scope): Attempt -> nat {
    a => if Weighs(a, c, scope) then 1 else 0
  }

  lemma {:induction false} PriorIsExact(attempts: seq<Attempt>, c: Context, scope: Scope, l: Limit)
    ensures |Prior(attempts, c, scope)| == Sum(attempts, Heads(c, scope))
    ensures ChargeSum(Prior(attempts, c, scope), l) == Sum(attempts, Weight(c, scope, l))
    decreases |attempts|
  {
    if attempts != [] {
      var rest, last := attempts[..|attempts| - 1], attempts[|attempts| - 1];
      PriorIsExact(rest, c, scope, l);
      hide Charge;
      var prior := Prior(rest, c, scope);
      assert (prior + [last])[..|prior|] == prior && prior + [] == prior;
      assert ChargeSum(prior + [last], l) == ChargeSum(prior, l) + Charge(last, l);
    }
  }

  ghost predicate Affordable(attempts: seq<Attempt>, b: ScopeBudget, c: Context, scope: Scope) {
    && Sum(attempts, Heads(c, scope)) < b.maxAttempts
    && forall l | l in b.limits :: Sum(attempts, Weight(c, scope, l)) + l.reserve <= l.max
  }

  lemma {:induction false} FitsIsExact(attempts: seq<Attempt>, b: ScopeBudget, c: Context, scope: Scope)
    ensures Fits(Prior(attempts, c, scope), b) <==> Affordable(attempts, b, c, scope)
  {
    hide Sum, Prior, ChargeSum;
    PriorIsExact(attempts, c, scope, UsageLimit("", 0, 0));
    forall l: Limit
      ensures ChargeSum(Prior(attempts, c, scope), l) == Sum(attempts, Weight(c, scope, l))
    {
      PriorIsExact(attempts, c, scope, l);
    }
  }

  /** One more reservation is granted exactly when it fits beside everything not cancelled, in all three scopes. */
  lemma {:induction false} AdmissionIsExact(attempts: seq<Attempt>, b: Budgets, c: Context)
    ensures Admissible(attempts, b, c) <==> forall scope: Scope :: Affordable(attempts, BudgetOf(b, scope), c, scope)
  {
    hide Sum, Prior, ChargeSum, Affordable, Fits;
    forall scope: Scope
      ensures Fits(Prior(attempts, c, scope), BudgetOf(b, scope)) <==> Affordable(attempts, BudgetOf(b, scope), c, scope)
    {
      FitsIsExact(attempts, BudgetOf(b, scope), c, scope);
    }
    if Admissible(attempts, b, c) {
      forall scope: Scope
        ensures Affordable(attempts, BudgetOf(b, scope), c, scope)
      {
        assert Fits(Prior(attempts, c, scope), BudgetOf(b, scope));
      }
    }
  }

  // ------------------------------------------------------------- where attempts come from

  /** Some admission of the run asked for the attempt, of this provider. */
  ghost predicate WasAdmitted(runs: seq<Attempted>, b: Budgets, a: Attempt) {
    exists k :: 0 <= k < |runs| && runs[k].change == Admission(b, a.id, a.provider)
  }

  /** Some completion of the run reported what the attempt settled on. */
  ghost predicate WasReported(runs: seq<Attempted>, b: Budgets, a: Attempt) {
    exists k, before :: 0 <= k < |runs| && Reports(runs[k], b, before, a)
  }

  ghost predicate Reports(x: Attempted, b: Budgets, before: Attempt, a: Attempt) {
    && x.change.Completion? && x.change.budgets == b && x.change.id == a.id && x.cut > 0
    && Unbilled(before) && Settles(before, b, x.change.report, a)
  }

  predicate Settled(a: Attempt) {
    a.state.Succeeded? || a.state.Failed? || a.state.Ambiguous?
  }

  ghost predicate Accounted(runs: seq<Attempted>, book: Book) {
    forall a | a in book.attempts :: WasAdmitted(runs, book.budgets, a) && (Settled(a) ==> WasReported(runs, book.budgets, a))
  }

  lemma {:induction false} AccountsLast(runs: seq<Attempted>, b: Budgets, a: Attempt)
    requires runs != []
    requires var front := runs[..|runs| - 1]; WasAdmitted(front, b, a) && (Settled(a) ==> WasReported(front, b, a))
    ensures WasAdmitted(runs, b, a) && (Settled(a) ==> WasReported(runs, b, a))
  {
    hide Reports;
    var front := runs[..|runs| - 1];
    var k :| 0 <= k < |front| && front[k].change == Admission(b, a.id, a.provider);
    assert runs[k] == front[k];
    if Settled(a) {
      var n, before :| 0 <= n < |front| && Reports(front[n], b, before, a);
      assert runs[n] == front[n];
    }
  }

  lemma AdmissionChanges(file: Option<Book>, x: Attempted)
    requires x.change.Admission? && After(file, x) != file
    ensures After(file, x).Some? && (file.Some? ==> file.value.budgets == x.change.budgets)
    ensures After(file, x).value.budgets == x.change.budgets
    ensures exists a ::
      After(file, x).value.attempts == (if file.Some? then file.value.attempts else []) + [a]
      && a.id == x.change.id && a.provider == x.change.provider && !Settled(a)
  {
    hide Admissible, Blocks;
    var a := After(file, x).value.attempts[|After(file, x).value.attempts| - 1];
    assert After(file, x).value.attempts == (if file.Some? then file.value.attempts else []) + [a];
  }

  lemma {:induction false} AdmissionAccounts(runs: seq<Attempted>)
    requires runs != [] && runs[|runs| - 1].change.Admission?
    requires var f := AfterAll(runs[..|runs| - 1]); f.Some? ==> Accounted(runs[..|runs| - 1], f.value)
    ensures AfterAll(runs).Some? ==> Accounted(runs, AfterAll(runs).value)
  {
    hide WasAdmitted, WasReported, After, Settled;
    var front, x := runs[..|runs| - 1], runs[|runs| - 1];
    var file := AfterAll(front);
    if After(file, x) != file {
      AdmissionChanges(file, x);
    }
    if AfterAll(runs).Some? {
      var book := AfterAll(runs).value;
      forall a | a in book.attempts
        ensures WasAdmitted(runs, book.budgets, a) && (Settled(a) ==> WasReported(runs, book.budgets, a))
      {
        if file.Some? && a in file.value.attempts {
          AccountsLast(runs, book.budgets, a);
        } else {
          NewlyAdmitted(runs, book.budgets, a);
        }
      }
    }
  }

  lemma NewlyAdmitted(runs: seq<Attempted>, b: Budgets, a: Attempt)
    requires runs != [] && runs[|runs| - 1].change == Admission(b, a.id, a.provider)
    ensures WasAdmitted(runs, b, a)
  {
  }

  lemma CompletionChanges(file: Option<Book>, x: Attempted)
    requires x.change.Completion? && After(file, x) != file
    ensures x.cut > 0 && file.Some? && After(file, x).Some?
    ensures var book, i := file.value, IndexOf(file.value.attempts, x.change.id);
      && i < |book.attempts| && book.attempts[i].state.Running? && book.budgets == x.change.budgets
      && After(file, x).value
         == book.(attempts := book.attempts[i := Completed(book.attempts[i], book.budgets, x.change.report)])
  {
    hide Completed;
  }

  lemma {:induction false} CompletionAccounts(runs: seq<Attempted>)
    requires runs != [] && runs[|runs| - 1].change.Completion?
    requires var f := AfterAll(runs[..|runs| - 1]); f.Some? ==> Accounted(runs[..|runs| - 1], f.value) && BookFits(f.value)
    ensures AfterAll(runs).Some? ==> Accounted(runs, AfterAll(runs).value)
  {
    hide Completed, Settles, WasAdmitted, WasReported, WithinBudget, Apart, After, AttemptFits;
    var front, x := runs[..|runs| - 1], runs[|runs| - 1];
    var file := AfterAll(front);
    if After(file, x) != file {
      CompletionChanges(file, x);
    }
    if AfterAll(runs).Some? {
      var book := AfterAll(runs).value;
      forall a | a in book.attempts
        ensures WasAdmitted(runs, book.budgets, a) && (Settled(a) ==> WasReported(runs, book.budgets, a))
      {
        if a in file.value.attempts {
          AccountsLast(runs, book.budgets, a);
        } else {
          var before := file.value.attempts[IndexOf(file.value.attempts, x.change.id)];
          assert before in file.value.attempts && AttemptFits(book.budgets, before);
          RunningIsUnbilled(book.budgets, before);
          CompletedSettles(before, book.budgets, x.change.report);
          SettlingKeepsIdentity(before, book.budgets, x.change.report, a);
          NewlyReported(runs, book.budgets, before, a);
        }
      }
    }
  }

  lemma RunningIsUnbilled(b: Budgets, a: Attempt)
    requires AttemptFits(b, a) && a.state.Running?
    ensures Unbilled(a)
  {
  }

  lemma SettlingKeepsIdentity(before: Attempt, b: Budgets, r: Report, a: Attempt)
    requires Settles(before, b, r, a)
    ensures a.id == before.id && a.provider == before.provider
  {
    hide Clean, WithinReservations;
  }

  lemma NewlyReported(runs: seq<Attempted>, b: Budgets, before: Attempt, a: Attempt)
    requires runs != [] && Reports(runs[|runs| - 1], b, before, a) && WasAdmitted(runs[..|runs| - 1], b, before)
    ensures WasAdmitted(runs, b, a) && WasReported(runs, b, a)
  {
    var front := runs[..|runs| - 1];
    var k :| 0 <= k < |front| && front[k].change == Admission(b, before.id, before.provider);
    assert runs[k].change == Admission(b, a.id, a.provider);
    hide Reports;
  }

  /**
   Every attempt in a ledger was asked for under its own identifier and provider; and one that is settled ended
   as some completed report of the run says, with what that report says was used.
   */
  lemma {:induction false} AttemptsEndAsReported(runs: seq<Attempted>)
    ensures AfterAll(runs).Some? ==> Accounted(runs, AfterAll(runs).value)
    decreases |runs|
  {
    if runs != [] {
      hide Accounted, BookFits, After;
      AttemptsEndAsReported(runs[..|runs| - 1]);
      EveryLedgerFits(runs[..|runs| - 1]);
      if runs[|runs| - 1].change.Admission? {
        AdmissionAccounts(runs);
      } else {
        CompletionAccounts(runs);
      }
    }
  }
}
