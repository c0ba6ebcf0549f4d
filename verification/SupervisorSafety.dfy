/** A supervisor process takes steps of the session machine, so what holds of every run holds of it. */
module SupervisorSafety {
  import opened Wrappers
  import opened Sessions
  import opened SessionSafety
  import opened SessionSteps
  import opened SessionRuns
  import SessionReopen
  import opened Supervisor

  lemma {:induction false} RunJoins(p: Policy, u: World, a: seq<Step>, v: World, b: seq<Step>, w: World)
    requires Run(p, u, a, v) && Run(p, v, b, w)
    ensures Run(p, u, a + b, w)
    decreases |a|
  {
    hide Enabled, Apply;
    if a == [] {
      assert a + b == b;
    } else {
      RunJoins(p, Apply(p, u, a[0]), a[1..], v, b, w);
      assert (a + b)[1..] == a[1..] + b;
    }
  }

  /** What a process has reached, reopened from anything reachable, is reachable; so no effect was posted twice. */
  lemma ProcessPostsAtMostOnce(s: Supervisor)
    requires s.Valid() && Reachable(s.policy, s.start)
    ensures Reachable(s.policy, s.Here())
    ensures forall i, j | 0 <= i < j < |s.posts| :: s.posts[i] != s.posts[j]
    ensures |s.posts| <= s.disk.budgets.outbound <= s.policy.limits.outbound
  {
    hide Run;
    var before :| Run(s.policy, Initial, before, s.start);
    RunJoins(s.policy, Initial, before, s.start, s.log, s.Here());
    PostedAtMostOnce(s.policy, s.Here());
  }

  lemma InvIsWellLinked(p: Policy, s: Session)
    requires Inv(p, s)
    ensures SessionReopen.WellLinked(s)
  {
    hide Inv;
    forall e | e in s.effects
      ensures e.node in s.nodes
    {
      NodeOfEffect(p, s, e);
    }
    forall id | id in s.nodes
      ensures s.nodes[id].job in s.jobs
    {
      HasParent(p, s, id);
    }
  }

  /** The records a reopen looks up are there, in whatever checkpoint it finds. */
  lemma ReopenFindsItsRecords(s: Supervisor)
    requires s.Valid() && Reachable(s.policy, s.start)
    ensures SessionReopen.WellLinked(s.data)
  {
    hide Run, Inv, SessionReopen.WellLinked;
    ProcessPostsAtMostOnce(s);
    ReachableInv(s.policy, s.Here());
    InvIsWellLinked(s.policy, s.data);
  }
}
