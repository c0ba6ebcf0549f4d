/** Every reachable session passes task graph validation, so an offline reopen is never refused for its graph. */
module SessionGraph {
  import Dag
  import Numerals
  import opened Wrappers
  import opened Sessions
  import opened SessionSafety
  import opened SessionRuns

  /** Identifiers as strings: distinct nodes of the session have distinct, well-formed names. */
  ghost predicate Naming(s: Session, name: NodeId -> Dag.Id) {
    && (forall a, b | a in s.nodes && b in s.nodes :: name(a) == name(b) ==> a == b)
    && (forall a | a in s.nodes :: Dag.IsId(name(a)))
  }

  // ------------------------------------------------------------ such names exist

  /** The highest limit on tasks that a session policy may set. */
  const TASKS: nat := 1000

  /** A number's decimal digits as characters. */
  function Numbered(n: nat): Dag.Id {
    var ds := Numerals.Minimal(n, 10);
    seq(|ds|, i requires 0 <= i < |ds| => Digit(ds[i]))
  }

  function Digit(d: nat): char {
    if d < 10 then "0123456789"[d] else '-'
  }

  lemma NumbersAreIds(n: nat)
    requires 1 <= n < Numerals.Pow(10, 128)
    ensures Dag.IsId(Numbered(n))
  {
    hide Numerals.Minimal, Numerals.Pow;
    Numerals.FitsInDigits(n, 10, 128);
  }

  lemma NumbersDiffer(m: nat, n: nat)
    requires Numbered(m) == Numbered(n)
    ensures m == n
  {
    var a, b := Numerals.Minimal(m, 10), Numerals.Minimal(n, 10);
    hide Numerals.Minimal;
    forall i | 0 <= i < |a|
      ensures |a| == |b| && a[i] == b[i]
    {
      assert Numbered(m)[i] == Digit(a[i]) && Numbered(n)[i] == Digit(b[i]);
    }
    assert |Numbered(m)| == |a| && |Numbered(n)| == |b|;
    assert a == b;
    Numerals.ValueOfMinimal(m, 10);
    Numerals.ValueOfMinimal(n, 10);
  }

  lemma {:induction false} Number(ids: set<NodeId>) returns (numbers: map<NodeId, nat>)
    ensures numbers.Keys == ids
    ensures forall a | a in ids :: 1 <= numbers[a] <= |ids|
    ensures forall a, b | a in ids && b in ids :: numbers[a] == numbers[b] ==> a == b
    decreases |ids|
  {
    numbers := map[];
    if ids != {} {
      var id :| id in ids;
      numbers := Number(ids - {id});
      numbers := numbers[id := |ids|];
    }
  }

  lemma NamingExists(s: Session)
    requires |s.nodes| < Numerals.Pow(10, 128)
    ensures exists name :: Naming(s, name)
  {
    hide Numbered, Numerals.Pow;
    var numbers := Number(s.nodes.Keys);
    assert |s.nodes.Keys| == |s.nodes|;
    var name: NodeId -> Dag.Id := id => if id in numbers then Numbered(numbers[id]) else "-";
    forall a | a in s.nodes
      ensures Dag.IsId(name(a))
    {
      NumbersAreIds(numbers[a]);
    }
    forall a, b | a in s.nodes && b in s.nodes && name(a) == name(b)
      ensures a == b
    {
      NumbersDiffer(numbers[a], numbers[b]);
    }
    assert Naming(s, name);
  }

  lemma PowersReach()
    ensures TASKS < Numerals.Pow(10, 128)
  {
    assert Numerals.Pow(10, 1) == 10;
    assert Numerals.Pow(10, 2) == 100;
    assert Numerals.Pow(10, 3) == 1000;
    assert Numerals.Pow(10, 4) == 10000;
    Numerals.PowMonotone(10, 4, 128);
  }

  function Names(name: NodeId -> Dag.Id, ids: seq<NodeId>): seq<Dag.Id> {
    seq(|ids|, i requires 0 <= i < |ids| => name(ids[i]))
  }

  ghost function Graph(s: Session, name: NodeId -> Dag.Id): Dag.Tasks
    requires Naming(s, name)
  {
    map id | id in s.nodes :: name(id) := Dag.Task(name(id), Names(name, s.nodes[id].dependencies))
  }

  ghost function Size(id: NodeId): nat {
    match id
    case Root(_) => 0
    case Child(_, _, _, _, dependencies) => 1 + Sizes(dependencies)
  }

  ghost function Sizes(ids: seq<NodeId>): nat {
    if ids == [] then 0 else Size(ids[0]) + Sizes(ids[1..])
  }

  lemma {:induction false} MemberIsSmaller(ids: seq<NodeId>, d: NodeId)
    requires d in ids
    ensures Size(d) <= Sizes(ids)
    decreases |ids|
  {
    if d != ids[0] {
      MemberIsSmaller(ids[1..], d);
    }
  }

  /** The node behind a name in the graph. */
  lemma NodeNamed(s: Session, name: NodeId -> Dag.Id, a: Dag.Id) returns (id: NodeId)
    requires Naming(s, name) && a in Graph(s, name)
    ensures id in s.nodes && name(id) == a
    ensures Graph(s, name)[a] == Dag.Task(a, Names(name, s.nodes[id].dependencies))
  {
    id :| id in s.nodes && name(id) == a;
  }

  /** An edge of the graph is a dependency of a node, on a smaller node of the same session. */
  lemma EdgeIsDependency(p: Policy, s: Session, name: NodeId -> Dag.Id, a: Dag.Id, b: Dag.Id) returns (id: NodeId, d: NodeId)
    requires Inv(p, s) && Naming(s, name) && Dag.Edge(Graph(s, name), a, b)
    ensures id in s.nodes && name(id) == a && d in s.nodes && name(d) == b && Size(d) < Size(id)
  {
    hide Inv;
    id := NodeNamed(s, name, a);
    var ids := s.nodes[id].dependencies;
    var i :| 0 <= i < |ids| && name(ids[i]) == b;
    d := ids[i];
    DependenciesFit(p, s, id);
    MemberIsSmaller(ids, d);
  }

  lemma NodesFit(p: Policy, s: Session, name: NodeId -> Dag.Id, x: Dag.Id)
    requires Inv(p, s) && Naming(s, name) && x in Graph(s, name)
    ensures Dag.WellFormed(Graph(s, name), x)
  {
    hide Inv;
    var id := NodeNamed(s, name, x);
    DependenciesFit(p, s, id);
  }

  lemma ReachableGraphIsValid(p: Policy, w: World, s: Session, name: NodeId -> Dag.Id)
    requires Reachable(p, w) && Held(w, s) && Naming(s, name)
    ensures Dag.Valid(Graph(s, name))
  {
    hide Run, Inv, Naming, Size, Dag.WellFormed;
    ReachableInv(p, w);
    var tasks := Graph(s, name);
    GraphIsAcyclic(p, s, name);
    hide Dag.Acyclic;
    forall x | Dag.Named(tasks, x)
      ensures Dag.WellFormed(tasks, x)
    {
      if x !in tasks {
        var a :| Dag.Edge(tasks, a, x);
        var id, d := EdgeIsDependency(p, s, name, a, x);
      }
      NodesFit(p, s, name, x);
    }
  }

  lemma GraphIsAcyclic(p: Policy, s: Session, name: NodeId -> Dag.Id)
    requires Inv(p, s) && Naming(s, name)
    ensures Dag.Acyclic(Graph(s, name))
  {
    hide Inv, Size, Dag.Acyclic, Dag.Edge;
    var tasks := Graph(s, name);
    var rank: map<Dag.Id, nat> := map id | id in s.nodes :: name(id) := Size(id);
    assert rank.Keys == tasks.Keys;
    forall a, b | a in rank && Dag.Edge(tasks, a, b)
      ensures b in rank && rank[b] < rank[a]
    {
      var id, d := EdgeIsDependency(p, s, name, a, b);
      assert rank[name(d)] == Size(d) && rank[name(id)] == Size(id);
    }
    Dag.RankedIsAcyclic(tasks, rank);
  }

  lemma DependenciesFit(p: Policy, s: Session, id: NodeId)
    requires Inv(p, s) && id in s.nodes
    ensures Distinct(s.nodes[id].dependencies)
    ensures forall d | d in s.nodes[id].dependencies :: d in s.nodes && id.Child? && d in id.dependencies
    ensures id.Child? ==> s.nodes[id].dependencies == id.dependencies
  {
    InvNode(p, s, id);
    hide Inv, WorkloadAllowed, DelegationAllowed, Progressed;
  }

  /** Every reachable session of an admissible policy can be named, and whatever its names its graph is valid. */
  lemma ReachableGraphIsNamed(p: Policy, w: World, s: Session)
    requires Reachable(p, w) && Held(w, s) && p.limits.tasks <= TASKS
    ensures exists name :: Naming(s, name) && Dag.Valid(Graph(s, name))
  {
    hide Reachable, Held, Graph, Naming, Dag.Valid;
    BudgetsAreExact(p, w, s);
    PowersReach();
    NamingExists(s);
    var name :| Naming(s, name);
    ReachableGraphIsValid(p, w, s, name);
  }
}
