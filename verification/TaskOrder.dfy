/**
 * Dependency graphs of task plans and workflows: the layered sort of a plan and
 * the acceptance of a workflow's dependencies, both by rounds of ready tasks.
 */
module TaskOrder {
  import opened Prelude

  type Id = nat
  type Graph = map<Id, set<Id>>

  // ----- Cycles -----

  ghost predicate IsWalk(g: Graph, path: seq<Id>)
  {
    forall i :: 0 <= i < |path| - 1 ==> path[i] in g && path[i + 1] in g[path[i]]
  }

  ghost predicate IsCycle(g: Graph, path: seq<Id>) { |path| >= 2 && path[0] == path[|path| - 1] && IsWalk(g, path) }

  ghost predicate Acyclic(g: Graph) { forall path :: !IsCycle(g, path) }

  ghost predicate Ranked(g: Graph, rank: map<Id, nat>)
  {
    g.Keys <= rank.Keys && forall id, d :: id in g && d in g[id] ==> d in rank && rank[d] < rank[id]
  }

  lemma {:induction false} RanksFall(g: Graph, rank: map<Id, nat>, path: seq<Id>)
    requires Ranked(g, rank) && IsWalk(g, path) && |path| >= 2
    ensures path[0] in rank && path[|path| - 1] in rank && rank[path[|path| - 1]] < rank[path[0]]
    decreases |path|
  {
    assert path[0] in g && path[1] in g[path[0]];
    if |path| > 2 {
      forall i | 0 <= i < |path[1..]| - 1 ensures path[1..][i] in g && path[1..][i + 1] in g[path[1..][i]] {
        assert path[1..][i] == path[i + 1] && path[1..][i + 1] == path[i + 2];
      }
      RanksFall(g, rank, path[1..]);
    }
  }

  lemma RankedIsAcyclic(g: Graph, rank: map<Id, nat>)
    requires Ranked(g, rank)
    ensures Acyclic(g)
  {
    forall path ensures !IsCycle(g, path) {
      if IsCycle(g, path) { RanksFall(g, rank, path); }
    }
  }

  ghost predicate WaitsWithin(g: Graph, stuck: set<Id>, id: Id) { id in g && exists d :: d in g[id] && d in stuck }

  /** Nobody in a set can go first: everyone waits for someone else in it. */
  ghost predicate Blocked(g: Graph, stuck: set<Id>)
  {
    forall id :: id in stuck ==> WaitsWithin(g, stuck, id)
  }

  lemma NextOf(g: Graph, stuck: set<Id>, id: Id) returns (d: Id)
    requires WaitsWithin(g, stuck, id)
    ensures id in g && d in g[id] && d in stuck
  {
    d :| d in g[id] && d in stuck;
  }

  lemma {:induction false} WalkOn(g: Graph, stuck: set<Id>, start: Id, n: nat) returns (path: seq<Id>)
    requires Blocked(g, stuck) && start in stuck
    ensures |path| == n + 1 && IsWalk(g, path) && forall i :: 0 <= i <= n ==> path[i] in stuck
  {
    hide WaitsWithin;
    if n == 0 { return [start]; }
    var rest := WalkOn(g, stuck, start, n - 1);
    var d := NextOf(g, stuck, rest[n - 1]);
    path := rest + [d];
  }

  lemma {:induction false} Repeats(stuck: set<Id>, path: seq<Id>) returns (i: nat, j: nat)
    requires |path| > |stuck| && forall k :: 0 <= k < |path| ==> path[k] in stuck
    ensures i < j < |path| && path[i] == path[j]
    decreases |path|
  {
    var last, rest := path[|path| - 1], path[..|path| - 1];
    if last in rest {
      i :| 0 <= i < |rest| && rest[i] == last;
      j := |path| - 1;
    } else {
      i, j := Repeats(stuck - {last}, rest);
    }
  }

  lemma PartOfWalk(g: Graph, path: seq<Id>, i: nat, j: nat)
    requires IsWalk(g, path) && i <= j <= |path|
    ensures IsWalk(g, path[i..j])
  {
    var part := path[i..j];
    forall k | 0 <= k < |part| - 1 ensures part[k] in g && part[k + 1] in g[part[k]] {
      assert part[k] == path[i + k] && part[k + 1] == path[i + k + 1];
    }
  }

  lemma BlockedHasCycle(g: Graph, stuck: set<Id>)
    requires Blocked(g, stuck) && stuck != {}
    ensures !Acyclic(g)
  {
    hide WaitsWithin;
    var start :| start in stuck;
    var path := WalkOn(g, stuck, start, |stuck|);
    var i, j := Repeats(stuck, path);
    PartOfWalk(g, path, i, j + 1);
    assert IsCycle(g, path[i..j + 1]);
  }

  // ----- Task plans -----

  datatype Task = Agent(id: Id, dependsOn: seq<Id>) | Human(id: Id, dependsOn: seq<Id>)

  function IdsOf(tasks: seq<Task>): set<Id> { set t | t in tasks :: t.id }

  function Needs(t: Task): set<Id> { set d | d in t.dependsOn }

  ghost predicate Unique(tasks: seq<Task>) { forall i, j :: 0 <= i < j < |tasks| ==> tasks[i].id != tasks[j].id }

  ghost predicate Known(tasks: seq<Task>) { forall t :: t in tasks ==> Needs(t) <= IdsOf(tasks) }

  function Pick(tasks: seq<Task>, done: set<Id>, ready: bool): seq<Task>
  {
    if tasks == [] then []
    else (if (Needs(tasks[0]) <= done) == ready then [tasks[0]] else []) + Pick(tasks[1..], done, ready)
  }

  /** Rounds: all tasks whose dependencies are done, in plan order, and then the rest; None when a round is empty. */
  function Layered(pending: seq<Task>, done: set<Id>): Option<seq<Task>>
    decreases |pending|
  {
    if pending == [] then Some([])
    else
      var ready := Pick(pending, done, true);
      if ready == [] then None
      else
        PickSizes(pending, done);
        var rest := Layered(Pick(pending, done, false), done + IdsOf(ready));
        if rest.None? then None else Some(ready + rest.value)
  }

  lemma {:induction false} PickSizes(tasks: seq<Task>, done: set<Id>)
    ensures |Pick(tasks, done, true)| + |Pick(tasks, done, false)| == |tasks|
    ensures multiset(Pick(tasks, done, true)) + multiset(Pick(tasks, done, false)) == multiset(tasks)
  {
    if tasks != [] {
      PickSizes(tasks[1..], done);
      assert tasks == [tasks[0]] + tasks[1..];
    }
  }

  lemma {:induction false} PickMembers(tasks: seq<Task>, done: set<Id>, ready: bool)
    ensures forall t :: t in Pick(tasks, done, ready) <==> t in tasks && (Needs(t) <= done) == ready
    ensures Unique(tasks) ==> Unique(Pick(tasks, done, ready))
  {
    hide Needs;
    if tasks != [] {
      PickMembers(tasks[1..], done, ready);
      var rest := Pick(tasks[1..], done, ready);
      assert forall t :: t in tasks <==> t == tasks[0] || t in tasks[1..];
      if Unique(tasks) { OthersDiffer(tasks, rest); }
    }
  }

  lemma OthersDiffer(tasks: seq<Task>, rest: seq<Task>)
    requires tasks != [] && Unique(tasks) && forall t :: t in rest ==> t in tasks[1..]
    ensures Unique(tasks[1..]) && forall i :: 0 <= i < |rest| ==> rest[i].id != tasks[0].id
  {
    forall i | 0 <= i < |rest| ensures rest[i].id != tasks[0].id {
      assert rest[i] in tasks[1..];
      var k :| 0 <= k < |tasks[1..]| && tasks[1..][k] == rest[i];
      assert tasks[k + 1] == rest[i];
    }
  }

  /** Every task comes after all tasks it depends on that are not done before. */
  ghost predicate InDependencyOrder(order: seq<Task>, done: set<Id>)
  {
    forall i :: 0 <= i < |order| ==> Needs(order[i]) <= done + IdsOf(order[..i])
  }

  /** The sort is a permutation of the plan in which every task follows what it depends on. */
  lemma {:induction false} LayeredSorts(pending: seq<Task>, done: set<Id>)
    requires Layered(pending, done).Some?
    ensures multiset(Layered(pending, done).value) == multiset(pending)
    ensures InDependencyOrder(Layered(pending, done).value, done)
    decreases |pending|
  {
    if pending != [] {
      var ready, rest := Pick(pending, done, true), Pick(pending, done, false);
      PickSizes(pending, done);
      LayeredSorts(rest, done + IdsOf(ready));
      PickMembers(pending, done, true);
      var tail := Layered(rest, done + IdsOf(ready)).value;
      var order := ready + tail;
      forall i | 0 <= i < |order| ensures Needs(order[i]) <= done + IdsOf(order[..i]) {
        if i < |ready| {
          assert order[i] in ready;
        } else {
          assert order[..i] == ready + tail[..i - |ready|];
          JoinIds(ready, tail[..i - |ready|]);
        }
      }
    }
  }

  lemma JoinIds(x: seq<Task>, y: seq<Task>)
    ensures IdsOf(x + y) == IdsOf(x) + IdsOf(y)
  {
    forall id ensures id in IdsOf(x + y) <==> id in IdsOf(x) || id in IdsOf(y) {
      if id in IdsOf(x) { var t :| t in x && t.id == id; assert t in x + y; }
      if id in IdsOf(y) { var t :| t in y && t.id == id; assert t in x + y; }
    }
  }

  // ----- Which order, exactly -----

  /** A level for each task: just above the highest level of what it depends on. */
  ghost predicate IsLevel(tasks: seq<Task>, level: map<Id, nat>)
  {
    forall t :: t in tasks ==> LevelOk(t, level)
  }

  ghost predicate LevelOk(t: Task, level: map<Id, nat>)
  {
    && t.id in level && (forall d :: d in Needs(t) ==> d in level && level[d] < level[t.id])
    && (level[t.id] > 0 ==> exists d :: d in Needs(t) && d in level && level[d] == level[t.id] - 1)
  }

  /** There is only one such level: the length of the longest chain of dependencies. */
  lemma {:induction false} LevelUnique(tasks: seq<Task>, x: map<Id, nat>, y: map<Id, nat>, t: Task)
    requires Known(tasks) && IsLevel(tasks, x) && IsLevel(tasks, y) && t in tasks
    ensures t.id in x && t.id in y && x[t.id] == y[t.id]
    decreases if t.id in x then x[t.id] else 0
  {
    hide LevelOk;
    assert LevelOk(t, x) && LevelOk(t, y);
    forall d | d in Needs(t) ensures d in x && d in y && x[d] == y[d] {
      NeedsBelow(t, x, d);
      assert d in IdsOf(tasks);
      var u :| u in tasks && u.id == d;
      LevelUnique(tasks, x, y, u);
    }
    SameLevel(t, x, y);
  }

  lemma NeedsBelow(t: Task, level: map<Id, nat>, d: Id)
    requires LevelOk(t, level) && d in Needs(t)
    ensures t.id in level && d in level && level[d] < level[t.id]
  {}

  lemma SameLevel(t: Task, x: map<Id, nat>, y: map<Id, nat>)
    requires LevelOk(t, x) && LevelOk(t, y) && forall d :: d in Needs(t) ==> d in x && d in y && x[d] == y[d]
    ensures t.id in x && t.id in y && x[t.id] == y[t.id]
  {
    if x[t.id] > 0 { var d :| d in Needs(t) && d in x && x[d] == x[t.id] - 1; }
    if y[t.id] > 0 { var d :| d in Needs(t) && d in y && y[d] == y[t.id] - 1; }
  }

  ghost predicate Before(tasks: seq<Task>, x: Task, y: Task) { exists a, b :: 0 <= a < b < |tasks| && tasks[a] == x && tasks[b] == y }

  /** Tasks by level, and on one level in plan order. */
  ghost predicate ByLevel(order: seq<Task>, tasks: seq<Task>, level: map<Id, nat>)
  {
    forall i, j :: 0 <= i < j < |order| ==> InTurn(order[i], order[j], tasks, level)
  }

  ghost predicate InTurn(x: Task, y: Task, tasks: seq<Task>, level: map<Id, nat>)
  {
    && x.id in level && y.id in level
    && (level[x.id] < level[y.id] || (level[x.id] == level[y.id] && Before(tasks, x, y)))
  }

  lemma BeforeLater(tasks: seq<Task>, x: Task, y: Task)
    requires tasks != [] && Before(tasks[1..], x, y)
    ensures Before(tasks, x, y)
  {
    var a, b :| 0 <= a < b < |tasks[1..]| && tasks[1..][a] == x && tasks[1..][b] == y;
    assert tasks[a + 1] == x && tasks[b + 1] == y;
  }

  lemma BeforeFirst(tasks: seq<Task>, y: Task)
    requires tasks != [] && y in tasks[1..]
    ensures Before(tasks, tasks[0], y)
  {
    var b :| 0 <= b < |tasks[1..]| && tasks[1..][b] == y;
    assert tasks[b + 1] == y;
  }

  lemma BeforeSplits(first: Task, rest: seq<Task>, x: Task, y: Task)
    requires Before([first] + rest, x, y)
    ensures (x == first && y in rest) || Before(rest, x, y)
  {
    var all := [first] + rest;
    var a, b :| 0 <= a < b < |all| && all[a] == x && all[b] == y;
    assert rest[b - 1] == y;
    if a > 0 { assert rest[a - 1] == x; }
  }

  lemma {:induction false} PickBefore(tasks: seq<Task>, done: set<Id>, ready: bool, x: Task, y: Task)
    requires Before(Pick(tasks, done, ready), x, y)
    ensures Before(tasks, x, y)
  {
    hide Needs, Before;
    if tasks == [] {
      assert Before([], x, y);
      NothingBefore(x, y);
    } else {
      var rest := Pick(tasks[1..], done, ready);
      PickMembers(tasks[1..], done, ready);
      if (Needs(tasks[0]) <= done) == ready { BeforeSplits(tasks[0], rest, x, y); } else { assert [] + rest == rest; }
      if Before(rest, x, y) {
        PickBefore(tasks[1..], done, ready, x, y);
        BeforeLater(tasks, x, y);
      } else {
        BeforeFirst(tasks, y);
      }
    }
  }

  lemma NothingBefore(x: Task, y: Task)
    ensures !Before([], x, y)
  {}

  /** Not ready when the last level was taken: something it needs is on that level, or is still to come. */
  ghost predicate Held(pending: seq<Task>, level: map<Id, nat>, n: nat)
  {
    n > 0 ==> forall t :: t in pending ==> exists d :: d in Needs(t) && (d !in level || level[d] == n - 1)
  }

  lemma LevelStays(t: Task, x: map<Id, nat>, y: map<Id, nat>)
    requires LevelOk(t, x) && forall id :: id in x ==> id in y && y[id] == x[id]
    ensures LevelOk(t, y)
  {}

  /** A round makes a level. */
  lemma RoundLevels(pending: seq<Task>, done: set<Id>, level: map<Id, nat>, n: nat) returns (next: map<Id, nat>)
    requires level.Keys == done && IdsOf(pending) !! done && Held(pending, level, n) && forall id :: id in level ==> level[id] < n
    ensures var ready, rest := Pick(pending, done, true), Pick(pending, done, false);
      && next.Keys == done + IdsOf(ready) && (forall id :: id in level ==> next[id] == level[id]) && (forall id :: id in next ==> next[id] < n + 1)
      && (forall t :: t in ready ==> next[t.id] == n && LevelOk(t, next)) && Held(rest, next, n + 1)
  {
    var ready, rest := Pick(pending, done, true), Pick(pending, done, false);
    PickMembers(pending, done, true);
    PickMembers(pending, done, false);
    next := map id | id in done + IdsOf(ready) :: if id in done then level[id] else n;
    forall t | t in ready ensures next[t.id] == n && LevelOk(t, next) {
      assert t.id in IdsOf(pending) && t.id in IdsOf(ready);
      if n > 0 {
        var d :| d in Needs(t) && (d !in level || level[d] == n - 1);
        assert d in done && next[d] == n - 1;
      }
    }
    forall t | t in rest ensures exists d :: d in Needs(t) && (d !in next || next[d] == n) {
      var d :| d in Needs(t) && d !in done;
    }
  }

  /** The sort goes level by level. */
  lemma {:induction false} LayeredLevels(pending: seq<Task>, done: set<Id>, level: map<Id, nat>, n: nat) returns (all: map<Id, nat>)
    requires Unique(pending) && Layered(pending, done).Some?
    requires level.Keys == done && IdsOf(pending) !! done && Held(pending, level, n) && forall id :: id in level ==> level[id] < n
    ensures (forall id :: id in level ==> id in all && all[id] == level[id]) && IsLevel(pending, all)
    ensures forall t :: t in pending ==> t.id in all && all[t.id] >= n
    ensures ByLevel(Layered(pending, done).value, pending, all)
    decreases |pending|
  {
    if pending == [] { return level; }
    var ready, rest := Pick(pending, done, true), Pick(pending, done, false);
    PickSizes(pending, done);
    PickMembers(pending, done, true);
    PickMembers(pending, done, false);
    var next := RoundLevels(pending, done, level, n);
    RestApart(pending, done);
    all := LayeredLevels(rest, done + IdsOf(ready), next, n + 1);
    forall t | t in pending ensures LevelOk(t, all) && all[t.id] >= n {
      if t in ready { LevelStays(t, next, all); } else { assert t in rest; }
    }
    LevelJoin(pending, done, all, n);
  }

  lemma RestApart(pending: seq<Task>, done: set<Id>)
    requires Unique(pending) && IdsOf(pending) !! done
    ensures IdsOf(Pick(pending, done, false)) !! done + IdsOf(Pick(pending, done, true))
  {
    PickMembers(pending, done, true);
    PickMembers(pending, done, false);
    forall x, y | x in Pick(pending, done, true) && y in Pick(pending, done, false) ensures x.id != y.id {
      var i :| 0 <= i < |pending| && pending[i] == x;
      var j :| 0 <= j < |pending| && pending[j] == y;
    }
    forall id | id in IdsOf(Pick(pending, done, false)) ensures id in IdsOf(pending) {
      var t :| t in Pick(pending, done, false) && t.id == id;
      assert t in pending;
    }
  }

  lemma LevelJoin(pending: seq<Task>, done: set<Id>, all: map<Id, nat>, n: nat)
    requires pending != [] && Layered(pending, done).Some?
    requires forall t :: t in Pick(pending, done, true) ==> t.id in all && all[t.id] == n
    requires forall t :: t in Pick(pending, done, false) ==> t.id in all && all[t.id] >= n + 1
    requires var ready, rest := Pick(pending, done, true), Pick(pending, done, false);
      Layered(rest, done + IdsOf(ready)).Some? && ByLevel(Layered(rest, done + IdsOf(ready)).value, rest, all)
    ensures ByLevel(Layered(pending, done).value, pending, all)
  {
    var ready, rest := Pick(pending, done, true), Pick(pending, done, false);
    var tail := Layered(rest, done + IdsOf(ready)).value;
    LayeredSorts(rest, done + IdsOf(ready));
    SameTasks(tail, rest);
    hide Before, Layered, Needs, Pick, ByLevel;
    WidenLevels(tail, pending, done, all);
    forall i, j | 0 <= i < j < |ready| ensures Before(pending, ready[i], ready[j]) {
      BeforeAt(ready, i, j);
      PickBefore(pending, done, true, ready[i], ready[j]);
    }
    JoinLevels(ready, tail, pending, all, n);
    assert Layered(pending, done).value == ready + tail by { RoundThenRest(pending, done); }
  }

  lemma RoundThenRest(pending: seq<Task>, done: set<Id>)
    requires pending != [] && Layered(pending, done).Some?
    ensures var ready, rest := Pick(pending, done, true), Pick(pending, done, false);
      Layered(rest, done + IdsOf(ready)).Some? && Layered(pending, done).value == ready + Layered(rest, done + IdsOf(ready)).value
  {}

  lemma WidenLevels(order: seq<Task>, pending: seq<Task>, done: set<Id>, all: map<Id, nat>)
    requires ByLevel(order, Pick(pending, done, false), all)
    ensures ByLevel(order, pending, all)
  {
    hide InTurn, Pick;
    forall i, j | 0 <= i < j < |order| ensures InTurn(order[i], order[j], pending, all) {
      assert InTurn(order[i], order[j], Pick(pending, done, false), all);
      WidenTurn(order[i], order[j], pending, done, all);
    }
  }

  lemma WidenTurn(x: Task, y: Task, pending: seq<Task>, done: set<Id>, all: map<Id, nat>)
    requires InTurn(x, y, Pick(pending, done, false), all)
    ensures InTurn(x, y, pending, all)
  {
    hide Before, Pick;
    if all[x.id] == all[y.id] { PickBefore(pending, done, false, x, y); }
  }

  lemma JoinLevels(ready: seq<Task>, tail: seq<Task>, tasks: seq<Task>, all: map<Id, nat>, n: nat)
    requires forall t :: t in ready ==> t.id in all && all[t.id] == n
    requires forall t :: t in tail ==> t.id in all && all[t.id] >= n + 1
    requires ByLevel(tail, tasks, all) && forall i, j :: 0 <= i < j < |ready| ==> Before(tasks, ready[i], ready[j])
    ensures ByLevel(ready + tail, tasks, all)
  {
    hide Before;
    var order := ready + tail;
    forall i, j | 0 <= i < j < |order| ensures InTurn(order[i], order[j], tasks, all) {
      if j < |ready| {
        assert order[i] == ready[i] && order[j] == ready[j] && ready[i] in ready && ready[j] in ready;
      } else if i < |ready| {
        assert ready[i] in ready && tail[j - |ready|] in tail;
      } else {
        assert tail[i - |ready|] == order[i] && tail[j - |ready|] == order[j];
      }
    }
  }

  lemma BeforeAt(tasks: seq<Task>, a: nat, b: nat)
    requires a < b < |tasks|
    ensures Before(tasks, tasks[a], tasks[b])
  {}

  /** The order is by longest chain of dependencies first, and then by place in the plan. */
  lemma OrderExactly(tasks: seq<Task>) returns (level: map<Id, nat>)
    requires Unique(tasks) && Layered(tasks, {}).Some?
    ensures IsLevel(tasks, level) && ByLevel(Layered(tasks, {}).value, tasks, level)
  {
    level := LayeredLevels(tasks, {}, map[], 0);
  }

  function GraphOf(tasks: seq<Task>): Graph
  {
    if tasks == [] then map[] else GraphOf(tasks[1..])[tasks[0].id := Needs(tasks[0])]
  }

  lemma {:induction false} GraphEdges(tasks: seq<Task>)
    requires Unique(tasks)
    ensures GraphOf(tasks).Keys == IdsOf(tasks) && forall t :: t in tasks ==> GraphOf(tasks)[t.id] == Needs(t)
  {
    if tasks != [] {
      assert forall t :: t in tasks <==> t == tasks[0] || t in tasks[1..];
      GraphEdges(tasks[1..]);
      forall t | t in tasks[1..] ensures t.id != tasks[0].id {
        var k :| 0 <= k < |tasks[1..]| && tasks[1..][k] == t;
        assert tasks[k + 1] == t;
      }
      assert IdsOf(tasks) == IdsOf(tasks[1..]) + {tasks[0].id};
    }
  }

  /** The position of each task in the order ranks it above what it depends on. */
  lemma {:induction false} OrderRanks(order: seq<Task>, n: nat) returns (rank: map<Id, nat>)
    requires n <= |order| && Unique(order) && InDependencyOrder(order, {})
    ensures rank.Keys == IdsOf(order[..n])
    ensures forall i :: 0 <= i < n ==> order[i].id in rank && rank[order[i].id] == i
  {
    if n == 0 { return map[]; }
    rank := OrderRanks(order, n - 1);
    assert order[..n] == order[..n - 1] + [order[n - 1]];
    JoinIds(order[..n - 1], [order[n - 1]]);
    rank := rank[order[n - 1].id := n - 1];
  }

  lemma OrderRanksGraph(tasks: seq<Task>, order: seq<Task>) returns (rank: map<Id, nat>)
    requires Unique(tasks) && Unique(order) && multiset(order) == multiset(tasks) && InDependencyOrder(order, {})
    ensures Ranked(GraphOf(tasks), rank)
  {
    hide GraphOf, Needs, IdsOf;
    SameTasks(order, tasks);
    rank := OrderRanks(order, |order|);
    assert order[..|order|] == order;
    GraphEdges(tasks);
    forall id, d | id in GraphOf(tasks) && d in GraphOf(tasks)[id] ensures d in rank && rank[d] < rank[id] {
      var t := TaskOf(tasks, id);
      assert t in order;
      var i :| 0 <= i < |order| && order[i] == t;
      EarlierRank(order, rank, i, d);
    }
  }

  lemma TaskOf(tasks: seq<Task>, id: Id) returns (t: Task)
    requires id in IdsOf(tasks)
    ensures t in tasks && t.id == id
  {
    t :| t in tasks && t.id == id;
  }

  lemma EarlierRank(order: seq<Task>, rank: map<Id, nat>, i: nat, d: Id)
    requires i < |order| && d in Needs(order[i]) && Needs(order[i]) <= IdsOf(order[..i])
    requires forall k :: 0 <= k < |order| ==> order[k].id in rank && rank[order[k].id] == k
    ensures d in rank && rank[d] < i
  {
    var u :| u in order[..i] && u.id == d;
    var j :| 0 <= j < i && order[j] == u;
  }

  lemma SortedIsAcyclic(tasks: seq<Task>)
    requires Unique(tasks) && Layered(tasks, {}).Some?
    ensures Acyclic(GraphOf(tasks))
  {
    hide Layered, InDependencyOrder, Acyclic, GraphOf;
    LayeredSorts(tasks, {});
    LayeredUnique(tasks, {});
    var rank := OrderRanksGraph(tasks, Layered(tasks, {}).value);
    RankedIsAcyclic(GraphOf(tasks), rank);
  }

  lemma SameTasks(x: seq<Task>, y: seq<Task>)
    requires multiset(x) == multiset(y)
    ensures (forall t :: t in x <==> t in y) && IdsOf(x) == IdsOf(y)
  {
    forall t ensures t in x <==> t in y { assert t in x <==> t in multiset(x); assert t in y <==> t in multiset(y); }
  }

  lemma {:induction false} LayeredUnique(pending: seq<Task>, done: set<Id>)
    requires Unique(pending) && Layered(pending, done).Some?
    ensures Unique(Layered(pending, done).value)
    decreases |pending|
  {
    if pending != [] {
      var ready, rest := Pick(pending, done, true), Pick(pending, done, false);
      PickSizes(pending, done);
      PickMembers(pending, done, true);
      PickMembers(pending, done, false);
      LayeredUnique(rest, done + IdsOf(ready));
      LayeredSorts(rest, done + IdsOf(ready));
      var tail := Layered(rest, done + IdsOf(ready)).value;
      SameTasks(tail, rest);
      forall i, j | 0 <= i < |ready| && 0 <= j < |tail| ensures ready[i].id != tail[j].id {
        assert ready[i] in ready && tail[j] in rest;
        var a :| 0 <= a < |pending| && pending[a] == ready[i];
        var b :| 0 <= b < |pending| && pending[b] == tail[j];
        assert a != b;
      }
    }
  }

  /** A round that finds nobody ready has found a cycle. */
  lemma EmptyRound(tasks: seq<Task>, pending: seq<Task>, done: set<Id>)
    requires Unique(tasks) && Known(tasks) && (forall t :: t in pending ==> t in tasks) && pending != []
    requires IdsOf(tasks) <= done + IdsOf(pending) && forall t :: t in pending ==> !(Needs(t) <= done)
    ensures !Acyclic(GraphOf(tasks))
  {
    hide Acyclic, WaitsWithin, GraphOf;
    var g, stuck := GraphOf(tasks), IdsOf(pending);
    GraphEdges(tasks);
    forall id | id in stuck ensures WaitsWithin(g, stuck, id) {
      var t :| t in pending && t.id == id;
      WaitsForPending(tasks, t, g, stuck, done);
    }
    assert pending[0] in pending && pending[0].id in stuck;
    BlockedHasCycle(g, stuck);
  }

  lemma WaitsForPending(tasks: seq<Task>, t: Task, g: Graph, stuck: set<Id>, done: set<Id>)
    requires Known(tasks) && t in tasks && t.id in g && g[t.id] == Needs(t) && !(Needs(t) <= done) && IdsOf(tasks) <= done + stuck
    ensures WaitsWithin(g, stuck, t.id)
  {
    hide Needs, IdsOf;
    var d :| d in Needs(t) && d !in done;
    assert d in IdsOf(tasks);
  }

  lemma {:induction false} UnsortedHasCycle(tasks: seq<Task>, pending: seq<Task>, done: set<Id>)
    requires Unique(tasks) && Known(tasks) && (forall t :: t in pending ==> t in tasks)
    requires IdsOf(tasks) <= done + IdsOf(pending) && Layered(pending, done).None?
    ensures !Acyclic(GraphOf(tasks))
    decreases |pending|
  {
    hide Acyclic, GraphOf, Known, Unique, Needs;
    var ready, rest := Pick(pending, done, true), Pick(pending, done, false);
    PickMembers(pending, done, true);
    PickMembers(pending, done, false);
    PickSizes(pending, done);
    if ready == [] {
      EmptyRound(tasks, pending, done);
    } else {
      SplitIds(pending, ready, rest);
      UnsortedHasCycle(tasks, rest, done + IdsOf(ready));
    }
  }

  lemma SplitIds(pending: seq<Task>, ready: seq<Task>, rest: seq<Task>)
    requires forall t :: t in pending ==> t in ready || t in rest
    ensures IdsOf(pending) <= IdsOf(ready) + IdsOf(rest)
  {}

  /** `ordered` succeeds on exactly the acyclic plans. */
  lemma SortsExactlyAcyclic(tasks: seq<Task>)
    requires Unique(tasks) && Known(tasks)
    ensures Layered(tasks, {}).Some? <==> Acyclic(GraphOf(tasks))
  {
    if Layered(tasks, {}).Some? { SortedIsAcyclic(tasks); } else { UnsortedHasCycle(tasks, tasks, {}); }
  }

  function Remove(tasks: seq<Task>, t: Task): seq<Task>
  {
    if tasks == [] then [] else if tasks[0] == t then tasks[1..] else [tasks[0]] + Remove(tasks[1..], t)
  }

  function Drop(tasks: seq<Task>, gone: set<Id>): seq<Task>
  {
    if tasks == [] then [] else (if tasks[0].id in gone then [] else [tasks[0]]) + Drop(tasks[1..], gone)
  }

  lemma Tail(tasks: seq<Task>)
    requires Unique(tasks) && tasks != []
    ensures Unique(tasks[1..]) && forall t :: t in tasks[1..] ==> t.id != tasks[0].id
  {
    forall t | t in tasks[1..] ensures t.id != tasks[0].id {
      var k :| 0 <= k < |tasks[1..]| && tasks[1..][k] == t;
      assert tasks[k + 1] == t;
    }
  }

  lemma {:induction false} DropOne(tasks: seq<Task>, gone: set<Id>, t: Task)
    requires Unique(tasks) && t in tasks && t.id !in gone
    ensures Remove(Drop(tasks, gone), t) == Drop(tasks, gone + {t.id})
  {
    hide Unique;
    Tail(tasks);
    var rest := Drop(tasks[1..], gone);
    if tasks[0] == t {
      DropAbsent(tasks[1..], gone, t.id);
      assert ([t] + rest)[1..] == rest;
    } else {
      assert t in tasks[1..];
      DropOne(tasks[1..], gone, t);
      assert ([tasks[0]] + rest)[1..] == rest && [] + rest == rest && t.id != tasks[0].id;
      assert [] + Drop(tasks[1..], gone + {t.id}) == Drop(tasks[1..], gone + {t.id});
    }
  }

  lemma {:induction false} DropAbsent(tasks: seq<Task>, gone: set<Id>, id: Id)
    requires forall t :: t in tasks ==> t.id != id
    ensures Drop(tasks, gone + {id}) == Drop(tasks, gone)
  {
    if tasks != [] { DropAbsent(tasks[1..], gone, id); }
  }

  lemma {:induction false} DropNone(tasks: seq<Task>)
    ensures Drop(tasks, {}) == tasks
  {
    if tasks != [] { DropNone(tasks[1..]); }
  }

  lemma {:induction false} DropReady(tasks: seq<Task>, done: set<Id>, gone: set<Id>)
    requires forall t :: t in tasks ==> (t.id in gone <==> Needs(t) <= done)
    ensures Drop(tasks, gone) == Pick(tasks, done, false)
  {
    if tasks != [] {
      assert tasks[0] in tasks;
      DropReady(tasks[1..], done, gone);
    }
  }

  lemma ReadyIds(tasks: seq<Task>, done: set<Id>)
    requires Unique(tasks)
    ensures forall t :: t in tasks ==> (t.id in IdsOf(Pick(tasks, done, true)) <==> Needs(t) <= done)
  {
    var ready := Pick(tasks, done, true);
    PickMembers(tasks, done, true);
    forall t | t in tasks ensures t.id in IdsOf(ready) <==> Needs(t) <= done {
      if t.id in IdsOf(ready) {
        var u :| u in ready && u.id == t.id;
        var a :| 0 <= a < |tasks| && tasks[a] == t;
        var b :| 0 <= b < |tasks| && tasks[b] == u;
        assert a == b;
      }
    }
  }

  function Prepend(x: seq<Task>, rest: Option<seq<Task>>): Option<seq<Task>>
  {
    if rest.None? then None else Some(x + rest.value)
  }

  lemma RoundLayered(pending: seq<Task>, done: set<Id>, result: seq<Task>)
    requires pending != [] && Pick(pending, done, true) != []
    ensures var ready := Pick(pending, done, true);
      Prepend(result, Layered(pending, done)) == Prepend(result + ready, Layered(Pick(pending, done, false), done + IdsOf(ready)))
  {
    var ready := Pick(pending, done, true);
    var tail := Layered(Pick(pending, done, false), done + IdsOf(ready));
    if tail.Some? { assert result + (ready + tail.value) == (result + ready) + tail.value; }
  }

  /** The layered sort: moves every ready task of a round from the pending list to the result. */
  method Ordered(tasks: seq<Task>) returns (order: Option<seq<Task>>)
    requires Unique(tasks)
    ensures order == Layered(tasks, {})
    ensures order.Some? ==> exists level :: IsLevel(tasks, level) && ByLevel(order.value, tasks, level)
  {
    if Layered(tasks, {}).Some? { ghost var level := OrderExactly(tasks); }
    var pending: seq<Task>, done: set<Id>, result: seq<Task> := tasks, {}, [];
    assert Layered(tasks, {}).Some? ==> [] + Layered(tasks, {}).value == Layered(tasks, {}).value;
    while pending != []
      invariant Unique(pending)
      invariant Layered(tasks, {}) == Prepend(result, Layered(pending, done))
      decreases |pending|
    {
      var ready := Pick(pending, done, true);
      if ready == [] { return None; }
      RoundLayered(pending, done, result);
      result, done, pending := Round(pending, done, result, ready);
    }
    assert result + [] == result;
    order := Some(result);
  }

  method Round(pending: seq<Task>, done: set<Id>, result: seq<Task>, ready: seq<Task>)
    returns (r: seq<Task>, d: set<Id>, p: seq<Task>)
    requires Unique(pending) && ready == Pick(pending, done, true) && ready != []
    ensures r == result + ready && d == done + IdsOf(ready) && p == Pick(pending, done, false)
    ensures Unique(p) && |p| < |pending|
  {
    hide Unique, IdsOf, Drop, Remove, Needs, Pick;
    r, d, p := result, done, pending;
    DropNone(pending);
    NoIds();
    RoundDrops(pending, done);
    for i := 0 to |ready|
      invariant r == result + ready[..i] && d == done + IdsOf(ready[..i]) && p == Drop(pending, IdsOf(ready[..i]))
    {
      NotYet(ready, i);
      MoreIds(ready, i);
      assert ready[i] in ready;
      DropOne(pending, IdsOf(ready[..i]), ready[i]);
      r := r + [ready[i]];
      d := d + {ready[i].id};
      p := Remove(p, ready[i]);
    }
    assert ready[..|ready|] == ready;
  }

  lemma RoundDrops(pending: seq<Task>, done: set<Id>)
    requires Unique(pending)
    ensures var ready, rest := Pick(pending, done, true), Pick(pending, done, false);
      && Drop(pending, IdsOf(ready)) == rest && |rest| + |ready| == |pending| && Unique(rest) && Unique(ready)
      && forall t :: t in ready ==> t in pending
  {
    hide Unique, Pick;
    PickMembers(pending, done, true);
    PickMembers(pending, done, false);
    PickSizes(pending, done);
    ReadyIds(pending, done);
    DropReady(pending, done, IdsOf(Pick(pending, done, true)));
  }

  lemma NoIds()
    ensures IdsOf([]) == {}
  {}

  lemma MoreIds(tasks: seq<Task>, i: nat)
    requires i < |tasks|
    ensures tasks[..i + 1] == tasks[..i] + [tasks[i]] && IdsOf(tasks[..i + 1]) == IdsOf(tasks[..i]) + {tasks[i].id}
  {
    JoinIds(tasks[..i], [tasks[i]]);
    assert tasks[i] in [tasks[i]];
  }

  lemma NotYet(tasks: seq<Task>, i: nat)
    requires Unique(tasks) && i < |tasks|
    ensures tasks[i].id !in IdsOf(tasks[..i])
  {
    assert forall t :: t in tasks[..i] ==> exists k :: 0 <= k < i && tasks[k] == t;
  }

  /** What a plan has to satisfy to be accepted; an interactive plan also needs an input. */
  method ValidPlan(tasks: seq<Task>, interactive: bool) returns (valid: bool)
    ensures valid <==>
      Unique(tasks) && Known(tasks) && Acyclic(GraphOf(tasks)) && (interactive ==> exists t :: t in tasks && t.Human?)
  {
    hide Acyclic, GraphOf;
    var unique := forall i, j :: 0 <= i < j < |tasks| ==> tasks[i].id != tasks[j].id;
    var ids := IdsOf(tasks);
    var known := forall t :: t in tasks ==> Needs(t) <= ids;
    var human := exists t :: t in tasks && t.Human?;
    if !unique || !known || (interactive && !human) { return false; }
    SortsExactlyAcyclic(tasks);
    var order := Ordered(tasks);
    valid := order.Some?;
  }

  // ----- Workflow dependencies -----

  ghost predicate Declared(steps: set<Id>, values: map<Id, seq<Id>>)
  {
    && values.Keys == steps
    && forall name :: name in values ==>
         |values[name]| <= 31 && (forall d :: d in values[name] ==> d in values && d != name)
         && forall i, j :: 0 <= i < j < |values[name]| ==> values[name][i] != values[name][j]
  }

  function Needed(values: map<Id, seq<Id>>): Graph
  {
    map name | name in values :: set d | d in values[name]
  }

  lemma BlockedRound(g: Graph, done: set<Id>)
    requires forall id, d :: id in g && d in g[id] ==> d in g
    requires forall id :: id in g && id !in done ==> !(g[id] <= done)
    ensures Blocked(g, g.Keys - done)
  {
    forall id | id in g.Keys - done ensures WaitsWithin(g, g.Keys - done, id) {
      var d :| d in g[id] && d !in done;
      assert d in g.Keys - done;
    }
  }

  /** The rounds so far rank what they have accepted. */
  ghost predicate RankedUpto(g: Graph, done: set<Id>, rank: map<Id, nat>, round: nat)
  {
    && done <= g.Keys && rank.Keys == done && (forall id :: id in done ==> rank[id] < round)
    && forall id, d :: id in done && d in g[id] ==> d in done && rank[d] < rank[id]
  }

  ghost function NextRank(done: set<Id>, ready: set<Id>, rank: map<Id, nat>, round: nat): map<Id, nat>
    requires rank.Keys == done
  {
    map id | id in done + ready :: if id in done then rank[id] else round
  }

  lemma RankRound(g: Graph, done: set<Id>, ready: set<Id>, rank: map<Id, nat>, round: nat)
    requires RankedUpto(g, done, rank, round)
    requires forall id :: id in ready ==> id in g && id !in done && g[id] <= done
    ensures RankedUpto(g, done + ready, NextRank(done, ready, rank, round), round + 1)
  {}

  function ReadySteps(g: Graph, done: set<Id>): set<Id> { set id | id in g && id !in done && g[id] <= done }

  /**
   * Accepts exactly the declared, acyclic dependencies, and then ranks every step above what it needs.
   */
  method Dependencies(steps: set<Id>, values: map<Id, seq<Id>>) returns (accepted: bool, ghost rank: map<Id, nat>)
    ensures accepted <==> Declared(steps, values) && Acyclic(Needed(values))
    ensures accepted ==> Ranked(Needed(values), rank)
  {
    hide Acyclic, WaitsWithin, Blocked;
    rank := map[];
    if values.Keys != steps { return false, rank; }
    if !forall name :: name in values ==>
         |values[name]| <= 31 && (forall d :: d in values[name] ==> d in values && d != name)
         && forall i, j :: 0 <= i < j < |values[name]| ==> values[name][i] != values[name][j]
    {
      return false, rank;
    }
    accepted, rank := Rounds(Needed(values));
  }

  method Rounds(g: Graph) returns (accepted: bool, ghost rank: map<Id, nat>)
    requires forall id, d :: id in g && d in g[id] ==> d in g
    ensures accepted <==> Acyclic(g)
    ensures accepted ==> Ranked(g, rank)
  {
    hide Acyclic, WaitsWithin, Blocked, NextRank, RankedUpto;
    rank := map[];
    var done: set<Id> := {};
    ghost var round := 0;
    assert RankedUpto(g, {}, map[], 0) by { RankNone(g); }
    while done != g.Keys
      invariant RankedUpto(g, done, rank, round) && done <= g.Keys && rank.Keys == done
      decreases |g.Keys - done|
    {
      var ready := ReadySteps(g, done);
      if ready == {} {
        assert forall id :: id in g && id !in done ==> id !in ready;
        BlockedRound(g, done);
        assert g.Keys - done != {};
        BlockedHasCycle(g, g.Keys - done);
        return false, rank;
      }
      RankRound(g, done, ready, rank, round);
      var id :| id in ready;
      assert id in g.Keys - done && id !in g.Keys - (done + ready);
      Shrink(g.Keys - done, g.Keys - (done + ready), id);
      rank := NextRank(done, ready, rank, round);
      done, round := done + ready, round + 1;
      RankKeys(g, done, rank, round);
    }
    RanksAll(g, rank, round);
    RankedIsAcyclic(g, rank);
    accepted := true;
  }

  lemma RankNone(g: Graph)
    ensures RankedUpto(g, {}, map[], 0)
  {}

  lemma RankKeys(g: Graph, done: set<Id>, rank: map<Id, nat>, round: nat)
    requires RankedUpto(g, done, rank, round)
    ensures rank.Keys == done && done <= g.Keys
  {}

  lemma RanksAll(g: Graph, rank: map<Id, nat>, round: nat)
    requires RankedUpto(g, g.Keys, rank, round)
    ensures Ranked(g, rank)
  {}

  lemma Shrink<T>(x: set<T>, y: set<T>, t: T)
    requires y <= x && t in x && t !in y
    ensures |y| < |x|
  {
    assert |x - {t}| == |x| - 1 && y <= x - {t};
    assert |x - {t}| == |y| + |x - {t} - y|;
  }
}
