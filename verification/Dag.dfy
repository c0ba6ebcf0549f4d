/** The session task graph: depth-first validation, and what it accepts. */
module Dag {

  type Id = string

  datatype Task = Task(id: Id, dependencies: seq<Id>)
  type Tasks = map<Id, Task>

  datatype Verdict = Accepted | BadId | Cycle | BadDependency

  predicate IsIdChar(c: char) {
    'a' <= c <= 'z' || 'A' <= c <= 'Z' || '0' <= c <= '9' || c == '_' || c == ':' || c == '-'
  }

  predicate IsId(id: Id) {
    1 <= |id| <= 128 && forall i | 0 <= i < |id| :: IsIdChar(id[i])
  }

  predicate Distinct(ids: seq<Id>) {
    forall i, j | 0 <= i < j < |ids| :: ids[i] != ids[j]
  }

  predicate WellFormed(tasks: Tasks, id: Id) {
    IsId(id) && id in tasks && tasks[id].id == id && Distinct(tasks[id].dependencies)
  }

  ghost predicate Edge(tasks: Tasks, a: Id, b: Id) {
    a in tasks && b in tasks[a].dependencies
  }

  /** A non-empty walk along dependencies. */
  ghost predicate IsPath(tasks: Tasks, p: seq<Id>) {
    p != [] && forall i | 0 <= i < |p| - 1 :: Edge(tasks, p[i], p[i + 1])
  }

  ghost predicate IsCycle(tasks: Tasks, p: seq<Id>) {
    IsPath(tasks, p) && |p| >= 2 && p[0] == p[|p| - 1]
  }

  ghost predicate Acyclic(tasks: Tasks) {
    forall p :: !IsCycle(tasks, p)
  }

  /** The graph names `id`: as a record, or as a dependency of one. */
  ghost predicate Named(tasks: Tasks, id: Id) {
    id in tasks || exists a :: Edge(tasks, a, id)
  }

  ghost predicate AllWellFormed(tasks: Tasks) {
    forall id | Named(tasks, id) :: WellFormed(tasks, id)
  }

  ghost predicate Valid(tasks: Tasks) {
    AllWellFormed(tasks) && Acyclic(tasks)
  }

  /** Ranks that fall along every edge leaving a ranked node. */
  ghost predicate Ranked(tasks: Tasks, rank: map<Id, nat>) {
    forall a, b | a in rank && Edge(tasks, a, b) :: b in rank && rank[b] < rank[a]
  }

  lemma {:induction false} RanksFallAlongPaths(tasks: Tasks, rank: map<Id, nat>, p: seq<Id>)
    requires Ranked(tasks, rank) && IsPath(tasks, p) && |p| >= 2 && p[0] in rank
    ensures p[|p| - 1] in rank && rank[p[|p| - 1]] < rank[p[0]]
    decreases |p|
  {
    assert Edge(tasks, p[0], p[1]);
    if |p| > 2 {
      var rest := p[1..];
      forall i | 0 <= i < |rest| - 1
        ensures Edge(tasks, rest[i], rest[i + 1])
      {
        assert Edge(tasks, p[i + 1], p[i + 2]);
      }
      RanksFallAlongPaths(tasks, rank, rest);
    }
  }

  lemma RankedIsAcyclic(tasks: Tasks, rank: map<Id, nat>)
    requires Ranked(tasks, rank) && rank.Keys == tasks.Keys
    ensures Acyclic(tasks)
  {
    forall p | IsCycle(tasks, p)
      ensures false
    {
      assert Edge(tasks, p[0], p[1]);
      RanksFallAlongPaths(tasks, rank, p);
    }
  }

  lemma PathExtends(tasks: Tasks, path: seq<Id>, id: Id)
    requires path != [] ==> IsPath(tasks, path) && Edge(tasks, path[|path| - 1], id)
    ensures IsPath(tasks, path + [id])
  {
    var p := path + [id];
    forall k | 0 <= k < |p| - 1
      ensures Edge(tasks, p[k], p[k + 1])
    {
      assert k + 1 < |path| ==> Edge(tasks, path[k], path[k + 1]);
    }
  }

  /** Meeting a node that is still open closes a cycle. */
  lemma OpenNodeClosesCycle(tasks: Tasks, path: seq<Id>, id: Id)
    requires path != [] && IsPath(tasks, path) && Edge(tasks, path[|path| - 1], id) && id in path
    ensures !Acyclic(tasks)
  {
    var i :| 0 <= i < |path| && path[i] == id;
    var p := path + [id];
    PathExtends(tasks, path, id);
    var cycle := p[i..];
    forall k | 0 <= k < |cycle| - 1
      ensures Edge(tasks, cycle[k], cycle[k + 1])
    {
      assert Edge(tasks, p[i + k], p[i + k + 1]);
    }
    assert IsCycle(tasks, cycle);
  }

  lemma RankNext(tasks: Tasks, rank: map<Id, nat>, id: Id, next: nat)
    requires Ranked(tasks, rank) && id in tasks && id !in rank
    requires forall x | x in rank :: rank[x] < next
    requires forall d | d in tasks[id].dependencies :: d in rank
    ensures Ranked(tasks, rank[id := next])
  {
  }

  /** One depth-first pass. `visiting` is the stack, `visited` what is finished. */
  class Validation {
    const tasks: Tasks
    var visiting: set<Id>
    var visited: set<Id>
    ghost var rank: map<Id, nat>
    ghost var next: nat

    constructor (tasks: Tasks)
      ensures this.tasks == tasks && visiting == {} && visited == {} && Consistent([])
    {
      this.tasks := tasks;
      visiting, visited, rank, next := {}, {}, map[], 0;
    }

    /** `path` is the chain of open visits, outermost first. */
    ghost predicate Consistent(path: seq<Id>)
      reads this
    {
      && visiting == (set x | x in path)
      && (path != [] ==> IsPath(tasks, path))
      && visiting <= tasks.Keys
      && rank.Keys == visited
      && (forall x | x in visited :: WellFormed(tasks, x) && rank[x] < next)
      && Ranked(tasks, rank)
      && visiting !! visited
    }

    method Visit(id: Id, ghost path: seq<Id>) returns (v: Verdict)
      requires Consistent(path) && Named(tasks, id)
      requires path != [] ==> Edge(tasks, path[|path| - 1], id)
      modifies this
      ensures v.Accepted? ==> Consistent(path) && visiting == old(visiting)
      ensures v.Accepted? ==> id in visited && old(visited) <= visited
      ensures v.Cycle? ==> !Acyclic(tasks)
      ensures v.BadId? || v.BadDependency? ==> !AllWellFormed(tasks)
      decreases tasks.Keys - visiting
    {
      if !IsId(id) {
        return BadId;
      }
      if id in visiting {
        OpenNodeClosesCycle(tasks, path, id);
        return Cycle;
      }
      if id in visited {
        return Accepted;
      }
      if !WellFormed(tasks, id) {
        return BadDependency;
      }
      var dependencies := tasks[id].dependencies;
      visiting := visiting + {id};
      ghost var deeper := path + [id];
      PathExtends(tasks, path, id);
      for k := 0 to |dependencies|
        invariant Consistent(deeper) && visiting == old(visiting) + {id}
        invariant old(visited) <= visited && forall i | 0 <= i < k :: dependencies[i] in visited
      {
        assert Edge(tasks, id, dependencies[k]);
        var inner := Visit(dependencies[k], deeper);
        if !inner.Accepted? {
          return inner;
        }
      }
      visiting := visiting - {id};
      RankNext(tasks, rank, id, next);
      rank, next := rank[id := next], next + 1;
      visited := visited + {id};
      return Accepted;
    }

    /** Accepts exactly the graphs whose every named id is well formed and that have no cycle. */
    method Run() returns (v: Verdict)
      requires visiting == {} && visited == {} && Consistent([])
      modifies this
      ensures v.Accepted? <==> Valid(tasks)
      ensures v.Cycle? ==> !Acyclic(tasks)
      ensures v.BadId? || v.BadDependency? ==> !AllWellFormed(tasks)
    {
      var todo := tasks.Keys;
      while todo != {}
        invariant Consistent([]) && tasks.Keys - todo <= visited && todo <= tasks.Keys
        decreases todo
      {
        var id :| id in todo;
        v := Visit(id, []);
        if !v.Accepted? {
          return;
        }
        todo := todo - {id};
      }
      RankedIsAcyclic(tasks, rank);
      v := Accepted;
    }
  }

  /** Adding one fresh node over existing ones keeps the graph valid exactly when the node itself is well formed. */
  lemma FreshNodeKeepsValid(tasks: Tasks, id: Id, dependencies: seq<Id>)
    requires Valid(tasks) && id !in tasks
    requires forall d | d in dependencies :: d in tasks
    ensures Valid(tasks[id := Task(id, dependencies)]) <==> IsId(id) && Distinct(dependencies)
  {
    var grown := tasks[id := Task(id, dependencies)];
    assert Named(grown, id);
    forall a, b | Edge(grown, a, b)
      ensures b in tasks
    {
      if a != id {
        assert Edge(tasks, a, b) && Named(tasks, b);
      }
    }
    forall p | IsCycle(grown, p)
      ensures false
    {
      forall i | 0 <= i < |p| - 1
        ensures p[i] in tasks
      {
        if i == 0 {
          assert Edge(grown, p[|p| - 2], p[|p| - 1]);
        } else {
          assert Edge(grown, p[i - 1], p[i]);
        }
      }
      assert forall i | 0 <= i < |p| - 1 :: Edge(grown, p[i], p[i + 1]) ==> Edge(tasks, p[i], p[i + 1]);
      assert IsCycle(tasks, p);
    }
    if IsId(id) && Distinct(dependencies) {
      forall x | Named(grown, x)
        ensures WellFormed(grown, x)
      {
        assert x != id ==> Named(tasks, x) && WellFormed(tasks, x);
      }
    }
  }
}
