/**
 The per-profile process lock: a lock file, a guard file held while the lock file is inspected,
 takeover from dead owners, and a release that takes no guard. Calls of `acquire` interleave freely;
 every file operation is one step, and a process may die between any two of them.
 */
module RuntimeLock {

  /** One call of `acquire`; it also stands for that call's random token and for the file it creates. */
  type Attempt = nat
  type Pid = nat

  /** A lock file remembers which call created it, and whether its record is fully written. */
  datatype LockFile = Absent | File(owner: Attempt, written: bool)

  datatype Phase =
    | Waiting                      // for the guard file
    | Guarded
    | Saw(found: LockFile)
    | Stale(previous: Attempt)     // judged the found owner dead
    | Clear
    | Opened
    | Wrote
    | Failing                      // on the way out, guard still held
    | Failed
    | Holding                      // `acquire` has returned the lock
    | Matched                      // release has read its own token
    | Released

  datatype State = State(
    lock: LockFile,
    guard: set<Attempt>,           // empty, or the creator of the guard file
    phase: map<Attempt, Phase>,
    dead: set<Pid>)

  datatype Action =
    | Begin(who: Attempt)
    | CreateGuard(who: Attempt)
    | GiveUp(who: Attempt)
    | ReadLock(who: Attempt)
    | Judge(who: Attempt)
    | RemoveStale(who: Attempt)
    | Open(who: Attempt)
    | Write(who: Attempt, whole: bool, synced: bool)
    | DropGuard(who: Attempt)
    | ReadToken(who: Attempt)
    | RemoveOwn(who: Attempt)
    | Die(pid: Pid)

  const Initial := State(Absent, {}, map[], {})

  function PhaseOf(s: State, a: Attempt): Phase {
    if a in s.phase then s.phase[a] else Failed
  }

  predicate Live(s: State, pid: Attempt -> Pid, a: Attempt) {
    pid(a) !in s.dead
  }

  predicate Enabled(s: State, pid: Attempt -> Pid, x: Action) {
    match x
    case Die(p) => true
    case Begin(a) => a !in s.phase && Live(s, pid, a)
    case _ =>
      && x.who in s.phase && Live(s, pid, x.who)
      && var p := s.phase[x.who];
      match x
      case CreateGuard(a) => p.Waiting? && s.guard == {}
      case GiveUp(a) => p.Waiting?
      case ReadLock(a) => p.Guarded?
      case Judge(a) => p.Saw?
      case RemoveStale(a) => p.Stale?
      case Open(a) => p.Clear?
      case Write(a, _, _) => p.Opened?
      case DropGuard(a) => p.Wrote? || p.Failing?
      case ReadToken(a) => p.Holding?
      case RemoveOwn(a) => p.Matched?
      case _ => false
  }

  /** Each step as the file system and the code see it; removals remove whatever file is there. */
  function Apply(s: State, pid: Attempt -> Pid, x: Action): State
    requires Enabled(s, pid, x)
  {
    match x
    case Die(p) => s.(dead := s.dead + {p})
    case Begin(a) => s.(phase := s.phase[a := Waiting])
    case CreateGuard(a) => s.(guard := {a}, phase := s.phase[a := Guarded])
    case GiveUp(a) => s.(phase := s.phase[a := Failed])
    case ReadLock(a) =>
      var torn := s.lock.File? && !s.lock.written;
      s.(phase := s.phase[a := if torn then Failing else Saw(s.lock)])
    case Judge(a) =>
      var found := s.phase[a].found;
      s.(phase := s.phase[a :=
        if found.Absent? then Clear
        else if Live(s, pid, found.owner) then Failing
        else Stale(found.owner)])
    case RemoveStale(a) =>
      if s.lock.Absent? then s.(phase := s.phase[a := Failing])
      else s.(lock := Absent, phase := s.phase[a := Clear])
    case Open(a) =>
      if s.lock.File? then s.(phase := s.phase[a := Failing])
      else s.(lock := File(a, false), phase := s.phase[a := Opened])
    case Write(a, whole, synced) =>
      var lock := if s.lock == File(a, false) then File(a, whole) else s.lock;
      s.(lock := lock, phase := s.phase[a := if whole && synced then Wrote else Failing])
    case DropGuard(a) =>
      s.(guard := {}, phase := s.phase[a := if s.phase[a].Wrote? then Holding else Failed])
    case ReadToken(a) =>
      s.(phase := s.phase[a := if s.lock == File(a, true) then Matched else Released])
    case RemoveOwn(a) => s.(lock := Absent, phase := s.phase[a := Released])
  }

  /** `log` is a run of enabled steps from `s` to `t`. */
  ghost predicate Run(s: State, pid: Attempt -> Pid, log: seq<Action>, t: State)
    decreases |log|
  {
    if log == [] then s == t
    else Enabled(s, pid, log[0]) && Run(Apply(s, pid, log[0]), pid, log[1..], t)
  }

  lemma {:induction false} RunSnoc(s: State, pid: Attempt -> Pid, log: seq<Action>, t: State, x: Action)
    requires Run(s, pid, log, t) && Enabled(t, pid, x)
    ensures Run(s, pid, log + [x], Apply(t, pid, x))
    decreases |log|
  {
    if log == [] {
      assert Run(Apply(s, pid, x), pid, [], Apply(t, pid, x));
      assert ([x])[1..] == [];
    } else {
      RunSnoc(Apply(s, pid, log[0]), pid, log[1..], t, x);
      assert (log + [x])[1..] == log[1..] + [x];
    }
  }

  lemma {:induction false} RunJoins(s: State, pid: Attempt -> Pid, a: seq<Action>, t: State, b: seq<Action>, u: State)
    requires Run(s, pid, a, t) && Run(t, pid, b, u)
    ensures Run(s, pid, a + b, u)
    decreases |a|
  {
    if a == [] {
      assert a + b == b;
    } else {
      RunJoins(Apply(s, pid, a[0]), pid, a[1..], t, b, u);
      assert (a + b)[1..] == a[1..] + b;
    }
  }

  /** `t` is reached from `s` by steps of others only. */
  ghost predicate Others(s: State, pid: Attempt -> Pid, me: Attempt, t: State) {
    exists log :: Run(s, pid, log, t) && NotMine(pid, me, log)
  }

  ghost predicate NotMine(pid: Attempt -> Pid, me: Attempt, log: seq<Action>) {
    forall i | 0 <= i < |log| :: if log[i].Die? then log[i].pid != pid(me) else log[i].who != me
  }

  lemma {:induction false} OthersLeaveMeAlong(s: State, pid: Attempt -> Pid, me: Attempt, log: seq<Action>, t: State)
    requires Run(s, pid, log, t) && NotMine(pid, me, log) && me in s.phase && Live(s, pid, me)
    ensures me in t.phase && t.phase[me] == s.phase[me] && Live(t, pid, me)
    decreases |log|
  {
    if log != [] {
      OthersLeaveMeAlong(Apply(s, pid, log[0]), pid, me, log[1..], t);
    }
  }

  lemma OthersLeaveMe(s: State, pid: Attempt -> Pid, me: Attempt, t: State)
    requires Others(s, pid, me, t) && me in s.phase && Live(s, pid, me)
    ensures me in t.phase && t.phase[me] == s.phase[me] && Live(t, pid, me)
  {
    var log :| Run(s, pid, log, t) && NotMine(pid, me, log);
    OthersLeaveMeAlong(s, pid, me, log, t);
  }

  // ------------------------------------------------------------------ invariant

  predicate HoldsGuard(p: Phase) {
    p.Guarded? || p.Saw? || p.Stale? || p.Clear? || p.Opened? || p.Wrote? || p.Failing?
  }

  predicate OwnsFile(p: Phase) {
    p.Wrote? || p.Holding? || p.Matched?
  }

  /** What a call that stopped in phase `p` knows about the lock file, as long as its process lives. */
  ghost predicate Knows(s: State, pid: Attempt -> Pid, a: Attempt, p: Phase) {
    && (OwnsFile(p) ==> s.lock == File(a, true))
    && (p.Opened? ==> s.lock == File(a, false))
    && (p.Clear? ==> s.lock.Absent?)
    && (p.Saw? && s.lock.File? ==> s.lock == p.found)
    && (p.Stale? ==> !Live(s, pid, p.previous) && (s.lock.File? ==> s.lock.owner == p.previous))
  }

  ghost predicate Inv(s: State, pid: Attempt -> Pid) {
    && (forall a | a in s.phase && HoldsGuard(s.phase[a]) :: s.guard == {a})
    && (forall a | a in s.phase && Live(s, pid, a) :: Knows(s, pid, a, s.phase[a]))
  }

  lemma StepKeepsInv(s: State, pid: Attempt -> Pid, x: Action)
    requires Inv(s, pid) && Enabled(s, pid, x)
    ensures Inv(Apply(s, pid, x), pid)
  {
    var t := Apply(s, pid, x);
    forall a | a in t.phase && HoldsGuard(t.phase[a])
      ensures t.guard == {a}
    {
      if a in s.phase && HoldsGuard(s.phase[a]) {
        assert s.guard == {a};
      }
    }
    forall a | a in t.phase && Live(t, pid, a)
      ensures Knows(t, pid, a, t.phase[a])
    {
      if a in s.phase {
        assert Knows(s, pid, a, s.phase[a]);
        if !x.Die? && x.who != a && x.who in s.phase {
          assert Knows(s, pid, x.who, s.phase[x.who]);
          assert HoldsGuard(s.phase[a]) ==> s.guard == {a};
          assert HoldsGuard(s.phase[x.who]) ==> s.guard == {x.who};
        }
      }
    }
  }

  lemma {:induction false} RunKeepsInv(s: State, pid: Attempt -> Pid, log: seq<Action>, t: State)
    requires Inv(s, pid) && Run(s, pid, log, t)
    ensures Inv(t, pid)
    decreases log
  {
    if log != [] {
      StepKeepsInv(s, pid, log[0]);
      RunKeepsInv(Apply(s, pid, log[0]), pid, log[1..], t);
    }
  }

  // ------------------------------------------------------------------- theorems

  ghost predicate Reachable(s: State, pid: Attempt -> Pid) {
    exists log :: Run(Initial, pid, log, s)
  }

  lemma ReachableInv(s: State, pid: Attempt -> Pid)
    requires Reachable(s, pid)
    ensures Inv(s, pid)
  {
    var log :| Run(Initial, pid, log, s);
    RunKeepsInv(Initial, pid, log, s);
  }

  /** At most one live, unreleased holder, whatever the interleaving and whoever dies. */
  lemma MutualExclusion(s: State, pid: Attempt -> Pid, a: Attempt, b: Attempt)
    requires Reachable(s, pid)
    requires Live(s, pid, a) && Live(s, pid, b) && OwnsFile(PhaseOf(s, a)) && OwnsFile(PhaseOf(s, b))
    ensures a == b && s.lock == File(a, true)
  {
    ReachableInv(s, pid);
    assert Knows(s, pid, a, s.phase[a]) && Knows(s, pid, b, s.phase[b]);
  }

  /** What a removal takes away: release only its own file, takeover only a dead owner's. */
  lemma RemovalSparesLiveOwners(s: State, pid: Attempt -> Pid, x: Action)
    requires Reachable(s, pid) && Enabled(s, pid, x)
    ensures x.RemoveOwn? ==> s.lock == File(x.who, true)
    ensures x.RemoveStale? && s.lock.File? ==> !Live(s, pid, s.lock.owner)
  {
    ReachableInv(s, pid);
    assert x.RemoveOwn? || x.RemoveStale? ==> Knows(s, pid, x.who, s.phase[x.who]);
  }

  /** Not only safe: left alone, a call takes over from nobody or from a dead owner, and ends up holding. */
  lemma TakeoverSucceeds(s: State, pid: Attempt -> Pid, me: Attempt) returns (log: seq<Action>, t: State)
    requires s.guard == {} && me !in s.phase && Live(s, pid, me)
    requires s.lock.File? ==> s.lock.written && !Live(s, pid, s.lock.owner)
    ensures Run(s, pid, log, t) && PhaseOf(t, me) == Holding && t.lock == File(me, true)
  {
    hide Run;
    var s1 := Apply(s, pid, Begin(me));
    var s2 := Apply(s1, pid, CreateGuard(me));
    t := Apply(s2, pid, ReadLock(me));
    Run3(s, pid, Begin(me), CreateGuard(me), ReadLock(me));
    log := [Begin(me), CreateGuard(me), ReadLock(me)];
    RunSnoc(s, pid, log, t, Judge(me));
    log, t := log + [Judge(me)], Apply(t, pid, Judge(me));
    if s.lock.File? {
      RunSnoc(s, pid, log, t, RemoveStale(me));
      log, t := log + [RemoveStale(me)], Apply(t, pid, RemoveStale(me));
    }
    var rest, u := InstallSucceeds(t, pid, me);
    RunJoins(s, pid, log, t, rest, u);
    log, t := log + rest, u;
  }

  lemma InstallSucceeds(s: State, pid: Attempt -> Pid, me: Attempt) returns (log: seq<Action>, t: State)
    requires s.lock.Absent? && me in s.phase && s.phase[me].Clear? && Live(s, pid, me)
    ensures Run(s, pid, log, t) && PhaseOf(t, me) == Holding && t.lock == File(me, true)
  {
    hide Run;
    log := [Open(me), Write(me, true, true), DropGuard(me)];
    t := Apply(Apply(Apply(s, pid, Open(me)), pid, Write(me, true, true)), pid, DropGuard(me));
    Run3(s, pid, Open(me), Write(me, true, true), DropGuard(me));
  }

  lemma {:induction false} Run3(s: State, pid: Attempt -> Pid, x: Action, y: Action, z: Action)
    requires Enabled(s, pid, x) && Enabled(Apply(s, pid, x), pid, y)
    requires Enabled(Apply(Apply(s, pid, x), pid, y), pid, z)
    ensures Run(s, pid, [x, y, z], Apply(Apply(Apply(s, pid, x), pid, y), pid, z))
  {
    RunSnoc(s, pid, [], s, x);
    RunSnoc(s, pid, [x], Apply(s, pid, x), y);
    RunSnoc(s, pid, [x, y], Apply(Apply(s, pid, x), pid, y), z);
    assert [] + [x] == [x] && [x] + [y] == [x, y] && [x, y] + [z] == [x, y, z];
  }

  // -------------------------------------------------------- the two operations

  /** What the directory held when a call read the lock file, judged its owner, and removed a dead owner's file. */
  datatype Sight = Sight(reading: State, judging: State, removing: State)

  /** The directory was in this state at some point of what has happened. */
  ghost predicate Was(pid: Attempt -> Pid, log: seq<Action>, at: State) {
    exists past :: past <= log && Run(Initial, pid, past, at)
  }

  ghost predicate AllWere(pid: Attempt -> Pid, log: seq<Action>, states: seq<State>) {
    forall k | 0 <= k < |states| :: Was(pid, log, states[k])
  }

  lemma {:induction false} IsNow(pid: Attempt -> Pid, log: seq<Action>, s: State)
    requires Run(Initial, pid, log, s)
    ensures Was(pid, log, s)
  {
  }

  lemma StillWas(pid: Attempt -> Pid, before: seq<Action>, log: seq<Action>, at: State)
    requires before <= log && Was(pid, before, at)
    ensures Was(pid, log, at)
  {
    hide Run;
    var past :| past <= before && Run(Initial, pid, past, at);
    assert past <= log;
  }

  lemma AllStill(pid: Attempt -> Pid, before: seq<Action>, log: seq<Action>, states: seq<State>)
    requires before <= log && AllWere(pid, before, states)
    ensures AllWere(pid, log, states)
  {
    hide Was;
    forall k | 0 <= k < |states|
      ensures Was(pid, log, states[k])
    {
      StillWas(pid, before, log, states[k]);
    }
  }

  lemma {:induction false} FirstLook(pid: Attempt -> Pid, log: seq<Action>, s: State)
    requires Run(Initial, pid, log, s)
    ensures AllWere(pid, log, [s])
  {
    IsNow(pid, log, s);
    hide Was, Run;
  }

  lemma {:induction false} OneMore(pid: Attempt -> Pid, log: seq<Action>, states: seq<State>, s: State)
    requires AllWere(pid, log, states) && Run(Initial, pid, log, s)
    ensures AllWere(pid, log, states + [s])
  {
    IsNow(pid, log, s);
    hide Was, Run;
  }

  /** The lock is there to be had: no file, or a whole one whose owner is dead and that is still there to be removed. */
  predicate Takes(sight: Sight, pid: Attempt -> Pid) {
    var found := sight.reading.lock;
    found.Absent? || (found.written && !Live(sight.judging, pid, found.owner) && sight.removing.lock.File?)
  }

  /** The directory holding the lock and guard files, together with everything done to it so far. */
  class LockDirectory {
    const pid: Attempt -> Pid
    var s: State
    ghost var log: seq<Action>

    constructor (pid: Attempt -> Pid)
      ensures this.pid == pid && s == Initial && Valid()
    {
      this.pid := pid;
      s, log := Initial, [];
    }

    ghost predicate Valid()
      reads this
    {
      Run(Initial, pid, log, s)
    }

    method Do(x: Action)
      requires Valid() && Enabled(s, pid, x)
      modifies this
      ensures Valid() && s == Apply(old(s), pid, x) && log == old(log) + [x]
    {
      RunSnoc(Initial, pid, log, s, x);
      s, log := Apply(s, pid, x), log + [x];
    }

    /** Any number of steps of other calls, and deaths of other processes, may happen here. */
    method Interfere(me: Attempt)
      requires Valid()
      modifies this
      ensures Valid() && Others(old(s), pid, me, s) && old(log) <= log
    {
      assert Run(s, pid, [], s);
    }

    /**
     Waits for the guard, at most 200 polls (5 s at 25 ms), then inspects and takes over under it. `whole` and `synced`
     say whether its own record gets written; `polled` is what the directory held at each look at the guard, `sight`
     what it held when the lock file was read, judged and removed.
     */
    method Acquire(me: Attempt, whole: bool, synced: bool) returns (held: bool, ghost polled: seq<State>, ghost sight: Sight)
      requires Valid() && me !in s.phase && Live(s, pid, me)
      modifies this
      ensures Valid() && Live(s, pid, me)
      ensures PhaseOf(s, me) == if held then Holding else Failed
      ensures held ==> s.lock == File(me, true) && s.guard == {}
      ensures 1 <= |polled| <= 201 && forall k | 0 <= k < |polled| - 1 :: polled[k].guard != {}
      ensures var free := polled[|polled| - 1].guard == {};
        (!free ==> |polled| == 201) && (held <==> free && Takes(sight, pid) && whole && synced)
      ensures old(log) <= log && AllWere(pid, log, polled)
      ensures Was(pid, log, sight.reading) && Was(pid, log, sight.judging) && Was(pid, log, sight.removing)
    {
      hide Run, Was, AllWere, Takes;
      Do(Begin(me));
      Pause(me);
      var free;
      free, polled := AwaitGuard(me);
      sight := Sight(s, s, s);
      IsNow(pid, log, s);
      if !free {
        return false, polled, sight;
      }
      ghost var past := log;
      Pause(me);
      sight := Inspect(me, whole, synced);
      AllStill(pid, past, log, polled);
      past := log;
      Do(DropGuard(me));
      AllStill(pid, past, log, polled);
      StillWas(pid, past, log, sight.reading);
      StillWas(pid, past, log, sight.judging);
      StillWas(pid, past, log, sight.removing);
      held := s.phase[me].Holding?;
      ReachableInv(s, pid);
      assert Knows(s, pid, me, s.phase[me]);
    }

    /** The poll for the guard file; creates it when it is gone. */
    method AwaitGuard(me: Attempt) returns (free: bool, ghost polled: seq<State>)
      requires Valid() && Live(s, pid, me) && PhaseOf(s, me) == Waiting && me in s.phase
      modifies this
      ensures Valid() && Live(s, pid, me) && me in s.phase && s.phase[me] == if free then Guarded else Failed
      ensures 1 <= |polled| <= 201 && (forall k | 0 <= k < |polled| - 1 :: polled[k].guard != {})
      ensures (free <==> polled[|polled| - 1].guard == {}) && (!free ==> |polled| == 201)
      ensures old(log) <= log && AllWere(pid, log, polled)
    {
      hide Run, Was, AllWere;
      polled := [s];
      FirstLook(pid, log, s);
      var polls := 0;
      while s.guard != {}
        invariant Valid() && Live(s, pid, me) && PhaseOf(s, me) == Waiting && me in s.phase
        invariant |polled| == polls + 1 <= 201 && polled[polls] == s
        invariant forall k | 0 <= k < polls :: polled[k].guard != {}
        invariant old(log) <= log && AllWere(pid, log, polled)
        decreases 200 - polls
      {
        ghost var past := log;
        if polls >= 200 {
          Do(GiveUp(me));
          AllStill(pid, past, log, polled);
          return false, polled;
        }
        polls := polls + 1;
        Pause(me);
        AllStill(pid, past, log, polled);
        OneMore(pid, log, polled, s);
        polled := polled + [s];
      }
      ghost var past := log;
      Do(CreateGuard(me));
      AllStill(pid, past, log, polled);
      free := true;
    }

    /** Under the guard: read the lock file, refuse a live owner, clear a dead one's file, create and write. */
    method Inspect(me: Attempt, whole: bool, synced: bool) returns (ghost sight: Sight)
      requires Valid() && Live(s, pid, me) && PhaseOf(s, me) == Guarded && me in s.phase
      modifies this
      ensures Valid() && Live(s, pid, me) && me in s.phase
      ensures s.phase[me].Wrote? || s.phase[me].Failing?
      ensures s.phase[me].Wrote? <==> Takes(sight, pid) && whole && synced
      ensures old(log) <= log
      ensures Was(pid, log, sight.reading) && Was(pid, log, sight.judging) && Was(pid, log, sight.removing)
    {
      hide Run, Was;
      sight := Sight(s, s, s);
      IsNow(pid, log, s);
      ghost var past := log;
      Do(ReadLock(me));
      Pause(me);
      StillWas(pid, past, log, sight.reading);
      if s.phase[me].Saw? {
        past := log;
        sight := sight.(judging := s, removing := s);
        IsNow(pid, log, s);
        Do(Judge(me));
        Pause(me);
        StillWas(pid, past, log, sight.reading);
        StillWas(pid, past, log, sight.judging);
        if s.phase[me].Stale? {
          past := log;
          sight := sight.(removing := s);
          IsNow(pid, log, s);
          Do(RemoveStale(me));
          Pause(me);
          StillWas(pid, past, log, sight.reading);
          StillWas(pid, past, log, sight.judging);
          StillWas(pid, past, log, sight.removing);
        }
        if s.phase[me].Clear? {
          past := log;
          CreateAndWrite(me, whole, synced);
          StillWas(pid, past, log, sight.reading);
          StillWas(pid, past, log, sight.judging);
          StillWas(pid, past, log, sight.removing);
        }
      }
    }

    method CreateAndWrite(me: Attempt, whole: bool, synced: bool)
      requires Valid() && Live(s, pid, me) && PhaseOf(s, me) == Clear && me in s.phase
      modifies this
      ensures Valid() && Live(s, pid, me) && me in s.phase
      ensures s.phase[me] == if whole && synced then Wrote else Failing
      ensures old(log) <= log
    {
      hide Run;
      ReachableInv(s, pid);
      assert Knows(s, pid, me, Clear);
      Do(Open(me));
      Pause(me);
      Do(Write(me, whole, synced));
      Pause(me);
    }

    /** Interference between two file operations of one call: its own place in the code does not move. */
    method Pause(me: Attempt)
      requires Valid() && Live(s, pid, me) && me in s.phase
      modifies this
      ensures Valid() && Live(s, pid, me) && me in s.phase && s.phase[me] == old(s.phase[me]) && old(log) <= log
    {
      Interfere(me);
      OthersLeaveMe(old(s), pid, me, s);
    }

    /** Takes no guard: reads the token, and later removes the file if the token was its own. A second call does nothing. */
    method Release(me: Attempt)
      requires Valid() && Live(s, pid, me) && me in s.phase && (s.phase[me].Holding? || s.phase[me].Released?)
      modifies this
      ensures Valid() && PhaseOf(s, me) == Released
      ensures old(s.phase[me]).Holding? ==> s.lock.Absent?
      ensures old(s.phase[me]).Released? ==> s == old(s) && log == old(log)
    {
      if s.phase[me].Released? {
        return;
      }
      ReachableInv(s, pid);
      assert Knows(s, pid, me, s.phase[me]);
      Do(ReadToken(me));
      Pause(me);
      Do(RemoveOwn(me));
    }
  }
}
