/**
 * The dependency scheduler of a workflow run: steps run side by side as soon
 * as their dependencies have results, inputs are polled, and whatever happens
 * the results that tasks still produce are published before the run ends.
 */
module ParallelWorkflow {
  import opened Prelude
  import opened WorkflowTypes
  import TaskOrder

  datatype Plan = Plan(steps: seq<Step>, needs: map<StepId, set<StepId>>, width: nat)

  /** How the tasks have ended; None while one runs. */
  type Tasks = map<StepId, Option<End>>

  ghost predicate WellFormed(p: Plan)
  {
    && 1 <= |p.steps| <= 32 && (forall i, j :: 0 <= i < j < |p.steps| ==> p.steps[i].id != p.steps[j].id)
    && (forall i :: 0 <= i < |p.steps| && p.steps[i].Work? ==> !p.steps[i].retryable)
    && p.needs.Keys == Ids(p) && (forall id :: id in p.needs ==> p.needs[id] <= Ids(p)) && 1 <= p.width <= 8
  }

  /** What the acceptance of the dependencies (TaskOrder.Dependencies) has established. */
  ghost predicate Ranked(p: Plan, rank: map<StepId, nat>) { TaskOrder.Ranked(p.needs, rank) }

  function Ids(p: Plan): set<StepId> { set i | 0 <= i < |p.steps| :: p.steps[i].id }

  function Members(ids: seq<StepId>): set<StepId> { set id | id in ids }

  /** Chosen steps in plan order. */
  function InOrder(steps: seq<Step>, chosen: set<StepId>): seq<StepId>
  {
    if steps == [] then [] else (if steps[0].id in chosen then [steps[0].id] else []) + InOrder(steps[1..], chosen)
  }

  function First(ids: seq<StepId>): Option<StepId> { if ids == [] then None else Some(ids[0]) }

  function Ready(p: Plan, results: map<StepId, Value>, id: StepId): bool
  {
    id in p.needs && p.needs[id] <= results.Keys
  }

  /**
   * What a run meets. In a helpful world the verifier approves, inputs have values that fit, and nothing stops what
   * precedes a start; in a distrusting one the verifier rejects; otherwise anything may happen.
   */
  datatype World = Arbitrary | Helpful | Distrusting

  // ----- What every saved row satisfies -----

  /** Results are closed under dependencies. */
  ghost predicate Closed(p: Plan, results: map<StepId, Value>)
  {
    forall id :: id in results ==> Ready(p, results, id)
  }

  /** The row's own account of what is under way: the steps launched and not yet published, in plan order. */
  ghost predicate Accounted(p: Plan, open: set<StepId>, inflightSteps: seq<StepId>, inflight: Option<StepId>)
  {
    |open| <= p.width && inflightSteps == InOrder(p.steps, open) && inflight == First(inflightSteps)
  }

  /** Steps are attempted once. */
  ghost predicate Attempted(p: Plan, attempts: map<StepId, nat>)
  {
    attempts.Keys <= Ids(p) && forall id :: id in attempts ==> attempts[id] == 1
  }

  /** Whatever has been started had all its dependencies complete. */
  ghost predicate Prepared(p: Plan, attempts: map<StepId, nat>, results: map<StepId, Value>)
  {
    forall id :: id in attempts ==> Ready(p, results, id)
  }

  ghost predicate StatusOk(p: Plan, s: State)
  {
    && (s.status == SourcesInvalid ==> s.rejected)
    && (s.rejected ==> s.results == map[] && (s.status == SourcesInvalid || s.attempts != map[]) && s.status != Completed)
    && (s.status == Completed ==> s.results.Keys == Ids(p))
  }

  /** Nothing can go on but pending inputs. */
  ghost predicate Stuck(p: Plan, results: map<StepId, Value>, waiting: set<StepId>)
  {
    forall i :: 0 <= i < |p.steps| && p.steps[i].id !in results && Ready(p, results, p.steps[i].id) ==>
      p.steps[i].Input? && p.steps[i].id in waiting
  }

  /** A run waits for input only if every unfinished step that could go on is an input that was asked for. */
  ghost predicate AllWaiting(p: Plan, s: State) { s.Unresolved() == {} && Stuck(p, s.results, Members(s.waiting)) }

  ghost predicate StateOk(p: Plan, s: State)
  {
    && Attempted(p, s.attempts) && StatusOk(p, s) && Members(s.waiting) <= Ids(p)
    && (!s.rejected ==> Closed(p, s.results) && Prepared(p, s.attempts, s.results))
    && (!s.rejected || s.attempts == map[] ==> Accounted(p, s.Unresolved(), s.inflightSteps, s.inflight))
  }

  ghost predicate Kept(p: Plan, row: State, log: seq<State>, starts: seq<StepId>, made: map<StepId, Value>)
  {
    && log != [] && log[|log| - 1] == row && (forall i :: 0 <= i < |log| ==> StateOk(p, log[i]))
    && Linked(log) && Counted(starts, row) && Genuine(row.results, made)
  }

  lemma KeptMore(p: Plan, row: State, log: seq<State>, starts: seq<StepId>, made: map<StepId, Value>, s: State)
    requires Kept(p, row, log, starts, made) && StateOk(p, s) && Moves(row, s) && Genuine(s.results, made)
    ensures Kept(p, s, log + [s], starts, made)
  {
    hide StateOk;
    LinkedMore(log, s);
    forall id: StepId ensures Count(starts, id) <= s.Attempt(id) { assert Count(starts, id) <= row.Attempt(id) <= s.Attempt(id); }
  }

  /** What a step without a result returns does not concern the row yet. */
  lemma MadeMore(p: Plan, row: State, log: seq<State>, starts: seq<StepId>, made: map<StepId, Value>, id: StepId, value: Value)
    requires Kept(p, row, log, starts, made) && id !in row.results
    ensures Kept(p, row, log, starts, made[id := value])
  {
    hide StateOk, Linked, Counted;
  }

  lemma RowOk(p: Plan, row: State, log: seq<State>, starts: seq<StepId>, made: map<StepId, Value>)
    requires Kept(p, row, log, starts, made)
    ensures StateOk(p, row)
  {}

  lemma StatusMoves(p: Plan, s: State, status: Status)
    requires StateOk(p, s) && status != SourcesInvalid && status != Completed
    requires s.rejected ==> s.attempts != map[]
    ensures StateOk(p, s.(status := status)) && Moves(s, s.(status := status))
  {}

  lemma RejectMoves(p: Plan, s: State)
    requires StateOk(p, s)
    ensures var t := s.(status := SourcesInvalid, results := map[], rejected := true); StateOk(p, t) && Moves(s, t)
  {}

  /** What the row shows after one of the errors a parallel run can raise. */
  ghost predicate Tells(code: Code, s: State) { Explains(code, s) && code != NotAllowed && code != Exhausted && code != CompletionFailed }

  // ----- Waiting for the environment -----

  /** While the executor waits, running tasks may end, in any way. */
  ghost predicate Evolves(x: Tasks, y: Tasks)
  {
    y.Keys == x.Keys && forall id :: id in x && x[id].Some? ==> y[id] == x[id]
  }

  /** Tasks are of steps without results, and have ended as they say. */
  ghost predicate Apart(tasks: Tasks, results: map<StepId, Value>, made: map<StepId, Value>)
  {
    && tasks.Keys !! results.Keys
    && forall id :: id in tasks && tasks[id].Some? && tasks[id].value.Made? ==> id in made && made[id] == tasks[id].value.value
  }

  /** Only tasks have made anything since. */
  ghost predicate Remembers(x: map<StepId, Value>, y: map<StepId, Value>, tasks: Tasks)
  {
    forall id :: id in x && id !in tasks ==> id in y && y[id] == x[id]
  }

  predicate AnyDone(tasks: Tasks) { exists id :: id in tasks && tasks[id].Some? }

  /** A task has ended with more than the journal takes. */
  ghost predicate Oversized(tasks: Tasks)
  {
    exists id :: id in tasks && tasks[id].Some? && (tasks[id].value.TooLarge? || tasks[id].value.Made?)
  }

  /** A task has ended without a value. */
  ghost predicate AnyBroken(tasks: Tasks) { exists id :: id in tasks && tasks[id].Some? && !tasks[id].value.Made? }

  lemma BrokenLeft(tasks: Tasks)
    requires AnyDone(tasks) && NoneMade(tasks)
    ensures AnyBroken(tasks)
  {}

  /** What has ended without a value stays, whatever else ends and is committed. */
  lemma BrokenStays(before: Tasks, ends: Tasks, tasks: Tasks, results: map<StepId, Value>)
    requires AnyBroken(before) && Evolves(before, ends) && Left(ends, tasks, results)
    ensures AnyBroken(tasks)
  {
    var id :| id in before && before[id].Some? && !before[id].value.Made?;
    assert id in ends && ends[id] == before[id] && id in tasks;
  }

  ghost predicate Small(id: StepId, tasks: Tasks)
  {
    id in tasks && tasks[id].Some? ==> !tasks[id].value.TooLarge? && !tasks[id].value.Made?
  }

  /** What the failures among the first `i` steps are, `left` being one that settles it. */
  ghost predicate Judged(p: Plan, tasks: Tasks, i: nat, failed: bool, code: Code, left: nat)
    requires i <= |p.steps|
  {
    && (if failed then left < i && p.steps[left].id in tasks && tasks[p.steps[left].id].Some?
        else forall k :: 0 <= k < i ==> p.steps[k].id !in tasks || tasks[p.steps[k].id].None?)
    && (code == StepFailed || code == BadPayload)
    && (if code == BadPayload then failed && !Small(p.steps[left].id, tasks) else forall k :: 0 <= k < i ==> Small(p.steps[k].id, tasks))
  }

  lemma JudgedNone(p: Plan, tasks: Tasks)
    ensures Judged(p, tasks, 0, false, StepFailed, 0)
  {}

  lemma JudgedTaken(p: Plan, tasks: Tasks, i: nat, failed: bool, code: Code, left: nat)
    requires WellFormed(p) && i < |p.steps| && Judged(p, tasks, i, failed, code, left)
    ensures Judged(p, tasks - {p.steps[i].id}, i + 1, failed, code, left)
  {}

  lemma JudgedSame(p: Plan, tasks: Tasks, i: nat, failed: bool, code: Code, left: nat)
    requires i < |p.steps| && Judged(p, tasks, i, failed, code, left) && (p.steps[i].id !in tasks || tasks[p.steps[i].id].None?)
    ensures Judged(p, tasks, i + 1, failed, code, left)
  {}

  lemma JudgedFailed(p: Plan, tasks: Tasks, i: nat, failed: bool, code: Code, left: nat)
    requires i < |p.steps| && Judged(p, tasks, i, failed, code, left) && p.steps[i].id in tasks && tasks[p.steps[i].id].Some?
    ensures var small := Small(p.steps[i].id, tasks);
      Judged(p, tasks, i + 1, true, if small then code else BadPayload, if failed && small then left else i)
  {}

  lemma JudgedAll(p: Plan, tasks: Tasks, failed: bool, code: Code, left: nat)
    requires Judged(p, tasks, |p.steps|, failed, code, left)
    requires forall id :: id in tasks ==> exists k :: 0 <= k < |p.steps| && p.steps[k].id == id
    ensures failed <==> AnyDone(tasks)
    ensures code == if Oversized(tasks) then BadPayload else StepFailed
  {
    if code == StepFailed {
      forall id | id in tasks && tasks[id].Some? ensures !tasks[id].value.TooLarge? && !tasks[id].value.Made? {
        var k :| 0 <= k < |p.steps| && p.steps[k].id == id;
        assert Small(p.steps[k].id, tasks);
      }
    }
  }

  /** The row that admits a step: its one attempt, and what is then in flight. */
  function Launched(p: Plan, s: State, i: nat): State
    requires i < |p.steps|
  {
    var pending := InOrder(p.steps, s.Unresolved() + {p.steps[i].id});
    s.(status := Running, attempts := s.attempts[p.steps[i].id := 1], inflightSteps := pending, inflight := First(pending))
  }

  /** The row that commits a result. */
  function Published(p: Plan, s: State, waiting: set<StepId>, id: StepId, value: Value): State
  {
    var pending := InOrder(p.steps, s.Unresolved() - {id});
    s.(results := s.results[id := value], inflightSteps := pending, inflight := First(pending), waiting := InOrder(p.steps, waiting - {id}))
  }

  lemma {:induction false} OrderedMembers(steps: seq<Step>, chosen: set<StepId>)
    ensures forall id :: id in InOrder(steps, chosen) <==> id in chosen && exists i :: 0 <= i < |steps| && steps[i].id == id
  {
    if steps != [] {
      OrderedMembers(steps[1..], chosen);
      forall id ensures id in InOrder(steps, chosen) <==> id in chosen && exists i :: 0 <= i < |steps| && steps[i].id == id {
        if i :| 0 <= i < |steps| && steps[i].id == id { if i > 0 { assert steps[1..][i - 1].id == id; } }
      }
    }
  }

  lemma MembersOfOrder(p: Plan, chosen: set<StepId>)
    requires chosen <= Ids(p)
    ensures Members(InOrder(p.steps, chosen)) == chosen
  {
    OrderedMembers(p.steps, chosen);
  }

  lemma LaunchUnresolved(p: Plan, s: State, i: nat)
    requires i < |p.steps| && p.steps[i].id !in s.results
    ensures Launched(p, s, i).Unresolved() == s.Unresolved() + {p.steps[i].id}
    ensures Launched(p, s, i).attempts.Keys == s.attempts.Keys + {p.steps[i].id}
  {
    hide InOrder;
    var id, t := p.steps[i].id, Launched(p, s, i);
    assert t.attempts.Keys == s.attempts.Keys + {id};
    forall a ensures a in t.Unresolved() <==> a in s.Unresolved() || a == id {}
  }

  lemma OneMore(x: set<StepId>, id: StepId)
    ensures |x + {id}| <= |x| + 1
  {
    if id in x { assert x + {id} == x; }
  }

  lemma AttemptedMore(p: Plan, attempts: map<StepId, nat>, i: nat)
    requires Attempted(p, attempts) && i < |p.steps|
    ensures Attempted(p, attempts[p.steps[i].id := 1])
  {
    assert attempts[p.steps[i].id := 1].Keys == attempts.Keys + {p.steps[i].id};
  }

  lemma LaunchLinks(p: Plan, s: State, i: nat)
    requires !s.rejected && i < |p.steps| && p.steps[i].id !in s.attempts
    ensures Moves(s, Launched(p, s, i))
  {
    hide InOrder;
  }

  lemma PreparedLaunch(p: Plan, attempts: map<StepId, nat>, results: map<StepId, Value>, id: StepId)
    requires Prepared(p, attempts, results) && Ready(p, results, id)
    ensures Prepared(p, attempts[id := 1], results)
  {
    hide Ready;
  }

  lemma PreparedPublish(p: Plan, attempts: map<StepId, nat>, results: map<StepId, Value>, id: StepId, value: Value)
    requires Prepared(p, attempts, results)
    ensures Prepared(p, attempts, results[id := value])
  {
    assert results[id := value].Keys == results.Keys + {id};
  }

  lemma LaunchMoves(p: Plan, s: State, i: nat)
    requires StateOk(p, s) && !s.rejected && i < |p.steps| && p.steps[i].id !in s.attempts
    requires p.steps[i].id !in s.results && |s.Unresolved()| < p.width && Ready(p, s.results, p.steps[i].id)
    ensures StateOk(p, Launched(p, s, i)) && Moves(s, Launched(p, s, i))
  {
    hide Closed, InOrder, Ids, Members, Moves, Attempted, Prepared, Ready;
    PreparedLaunch(p, s.attempts, s.results, p.steps[i].id);
    LaunchUnresolved(p, s, i);
    LaunchLinks(p, s, i);
    OneMore(s.Unresolved(), p.steps[i].id);
    AttemptedMore(p, s.attempts, i);
  }

  lemma PublishUnresolved(p: Plan, s: State, waiting: set<StepId>, id: StepId, value: Value)
    ensures Published(p, s, waiting, id, value).Unresolved() == s.Unresolved() - {id}
    ensures Published(p, s, waiting, id, value).results.Keys == s.results.Keys + {id}
  {
    hide InOrder;
    var t := Published(p, s, waiting, id, value);
    assert t.results.Keys == s.results.Keys + {id};
    forall a ensures a in t.Unresolved() <==> a in s.Unresolved() && a != id {}
  }

  lemma ClosedMore(p: Plan, results: map<StepId, Value>, id: StepId, value: Value)
    requires Closed(p, results) && Ready(p, results, id)
    ensures Closed(p, results[id := value])
  {
    assert results[id := value].Keys == results.Keys + {id};
  }

  lemma PublishLinks(p: Plan, s: State, waiting: set<StepId>, id: StepId, value: Value)
    requires !s.rejected && id !in s.results
    ensures Moves(s, Published(p, s, waiting, id, value))
  {
    hide InOrder;
  }

  lemma PublishMoves(p: Plan, s: State, waiting: set<StepId>, id: StepId, value: Value)
    requires StateOk(p, s) && !s.rejected && id !in s.results && id in Ids(p) && Ready(p, s.results, id) && waiting <= Ids(p)
    ensures StateOk(p, Published(p, s, waiting, id, value)) && Moves(s, Published(p, s, waiting, id, value))
  {
    hide InOrder, Ids, Closed, Ready, Attempted, Members, Moves, Prepared;
    var t := Published(p, s, waiting, id, value);
    PublishUnresolved(p, s, waiting, id, value);
    PublishLinks(p, s, waiting, id, value);
    SubsetSize(t.Unresolved(), s.Unresolved());
    MembersOfOrder(p, waiting - {id});
    ClosedMore(p, s.results, id, value);
    PreparedPublish(p, s.attempts, s.results, id, value);
  }

  // ----- A row and the executor's variables -----

  /** Tasks are exactly the launched, unpublished steps; a polled input has a result or is pending. */
  ghost predicate Fits(p: Plan, s: State, active: set<StepId>, waiting: set<StepId>, polled: set<StepId>)
  {
    && active <= s.attempts.Keys && waiting <= Ids(p)
    && (!s.rejected ==> active == s.Unresolved() && Members(s.waiting) == waiting && polled <= s.results.Keys + waiting)
    && (!s.rejected ==> forall id :: id in active ==> Ready(p, s.results, id))
  }

  lemma FitsWaiting(p: Plan, s: State, active: set<StepId>, waiting: set<StepId>, polled: set<StepId>)
    requires Fits(p, s, active, waiting, polled)
    ensures waiting <= Ids(p) && active <= s.attempts.Keys && (!s.rejected ==> active == s.Unresolved())
    ensures !s.rejected ==> forall id :: id in active ==> Ready(p, s.results, id)
    ensures !s.rejected ==> forall id :: id in polled ==> id in s.results || id in waiting
  {}

  lemma FitsStatus(p: Plan, s: State, active: set<StepId>, waiting: set<StepId>, polled: set<StepId>, status: Status)
    requires Fits(p, s, active, waiting, polled)
    ensures Fits(p, s.(status := status), active, waiting, polled)
    ensures Fits(p, s.(status := status, results := map[], rejected := true), active, waiting, polled)
  {}

  lemma FitsPublish(p: Plan, s: State, active: set<StepId>, waiting: set<StepId>, polled: set<StepId>, id: StepId, value: Value)
    requires Fits(p, s, active, waiting, polled) && !s.rejected
    ensures Fits(p, Published(p, s, waiting, id, value), active - {id}, waiting - {id}, polled)
    ensures Fits(p, Published(p, s, waiting, id, value), active - {id}, waiting - {id}, polled + {id})
  {
    hide InOrder;
    PublishUnresolved(p, s, waiting, id, value);
    MembersOfOrder(p, waiting - {id});
  }

  lemma FitsLaunch(p: Plan, s: State, active: set<StepId>, waiting: set<StepId>, polled: set<StepId>, i: nat)
    requires Fits(p, s, active, waiting, polled) && !s.rejected && i < |p.steps| && p.steps[i].id !in s.results && Ready(p, s.results, p.steps[i].id)
    ensures Fits(p, Launched(p, s, i), active + {p.steps[i].id}, waiting, polled)
  {
    hide InOrder;
    LaunchUnresolved(p, s, i);
  }

  /** The row that acknowledges an input as pending. */
  function Asked(p: Plan, s: State, waiting: set<StepId>, id: StepId): State { s.(waiting := InOrder(p.steps, waiting + {id})) }

  lemma AskMoves(p: Plan, s: State, active: set<StepId>, waiting: set<StepId>, polled: set<StepId>, id: StepId)
    requires StateOk(p, s) && !s.rejected && id in Ids(p) && Fits(p, s, active, waiting, polled)
    ensures StateOk(p, Asked(p, s, waiting, id)) && Moves(s, Asked(p, s, waiting, id))
    ensures Fits(p, Asked(p, s, waiting, id), active, waiting + {id}, polled + {id})
  {
    hide InOrder, Ids, Closed, Ready, Attempted, Members, Accounted, Prepared;
    var t := Asked(p, s, waiting, id);
    MembersOfOrder(p, waiting + {id});
    assert t.Unresolved() == s.Unresolved();
  }

  /** A polled input is pending from now on, or has its result. */
  ghost predicate Answered(x: map<StepId, Value>, y: map<StepId, Value>, wasWaiting: set<StepId>, waiting: set<StepId>, id: StepId)
  {
    if y == x then waiting == wasWaiting + {id} else id !in x && id in y && y == x[id := y[id]]
  }

  /** Some step other than an input has no result. */
  ghost predicate Missing(p: Plan, results: map<StepId, Value>)
  {
    exists i :: 0 <= i < |p.steps| && p.steps[i].Work? && p.steps[i].id !in results
  }

  lemma SameExplains(code: Code, s: State, t: State)
    requires Tells(code, s) && t.status == s.status && (s.rejected ==> t.rejected)
    ensures Tells(code, t)
  {}

  /** Results are added, none is lost; `Missing` can only go away by a step's result. */
  ghost predicate More(p: Plan, x: map<StepId, Value>, y: map<StepId, Value>) { x.Keys <= y.Keys }

  /** Every new result is what the task of its step ended with. */
  ghost predicate Committed(tasks: Tasks, x: map<StepId, Value>, y: map<StepId, Value>)
  {
    forall id :: id in y && id !in x ==> id in tasks && tasks[id] == Some(Made(y[id]))
  }

  /** Every task that ended with a value has it committed. */
  ghost predicate AllCommitted(tasks: Tasks, results: map<StepId, Value>)
  {
    forall id :: id in tasks && tasks[id].Some? && tasks[id].value.Made? ==> id in results && results[id] == tasks[id].value.value
  }

  /** The tasks that are left are as they were, and the others' values are committed. */
  ghost predicate Left(before: Tasks, tasks: Tasks, results: map<StepId, Value>)
  {
    && (forall id :: id in tasks ==> id in before && tasks[id] == before[id])
    && forall id :: id in before && id !in tasks ==> id in results && before[id] == Some(Made(results[id]))
  }

  /** Tasks have only been taken up, and what they ended with committed. */
  ghost predicate Progressed(p: Plan, before: Tasks, x: map<StepId, Value>, tasks: Tasks, y: map<StepId, Value>)
  {
    More(p, x, y) && Committed(before, x, y) && Left(before, tasks, y)
  }

  lemma ProgressMore(p: Plan, before: Tasks, x: map<StepId, Value>, tasks: Tasks, y: map<StepId, Value>, id: StepId, value: Value)
    requires Progressed(p, before, x, tasks, y) && id in tasks && tasks[id] == Some(Made(value)) && id !in y
    ensures Progressed(p, before, x, tasks - {id}, y[id := value]) && |y[id := value]| > |y|
  {
    OneBigger(y, id, value);
    var more, fewer := y[id := value], tasks - {id};
    assert More(p, x, more);
    forall k | k in more && k !in x ensures k in before && before[k] == Some(Made(more[k])) {
      if k == id { assert id in before && tasks[id] == before[id]; }
    }
    forall k | k in before && k !in fewer ensures k in more && before[k] == Some(Made(more[k])) {
      if k != id { assert k !in tasks; }
    }
  }

  lemma OneBigger(y: map<StepId, Value>, id: StepId, value: Value)
    requires id !in y
    ensures |y[id := value]| > |y| && y[id := value].Keys == y.Keys + {id}
  {
    assert |y[id := value]| == |y[id := value].Keys| && |y| == |y.Keys|;
  }

  lemma NoProgress(p: Plan, tasks: Tasks, results: map<StepId, Value>)
    ensures Progressed(p, tasks, results, tasks, results)
  {}

  lemma ProgressTells(p: Plan, before: Tasks, x: map<StepId, Value>, tasks: Tasks, y: map<StepId, Value>)
    requires Progressed(p, before, x, tasks, y)
    ensures More(p, x, y) && Committed(before, x, y) && Left(before, tasks, y)
  {}

  /** No task that has ended is left with a value. */
  ghost predicate NoneMade(tasks: Tasks) { forall id :: id in tasks && tasks[id].Some? ==> !tasks[id].value.Made? }

  /** Then all values are committed. */
  lemma ProgressDone(p: Plan, before: Tasks, x: map<StepId, Value>, tasks: Tasks, y: map<StepId, Value>)
    requires Progressed(p, before, x, tasks, y) && (NoneMade(tasks) || !AnyDone(tasks))
    ensures AllCommitted(before, y)
  {}

  lemma ProgressGrows(p: Plan, before: Tasks, x: map<StepId, Value>, tasks: Tasks, y: map<StepId, Value>)
    requires Progressed(p, before, x, tasks, y) && AnyDone(before) && !AnyDone(tasks) && before.Keys !! x.Keys
    ensures |y| > |x|
  {
    var id :| id in before && before[id].Some?;
    assert id in before.Keys && id !in tasks;
    assert x.Keys < y.Keys by { assert id in y.Keys && id !in x.Keys; }
    Smaller(x.Keys, y.Keys);
    assert |x| == |x.Keys| && |y| == |y.Keys|;
  }

  lemma Smaller(x: set<StepId>, y: set<StepId>)
    requires x < y
    ensures |x| < |y|
  {
    SubsetSize(x, y);
    if |x| == |y| {
      var id :| id in y && id !in x;
      SubsetSize(x + {id}, y);
    }
  }

  /** No value is left with the tasks of the first `n` steps. */
  ghost predicate AllTaken(p: Plan, tasks: Tasks, n: nat)
    requires n <= |p.steps|
  {
    forall k :: 0 <= k < n ==> Taken(p.steps[k].id, tasks)
  }

  lemma TakenNone(p: Plan, tasks: Tasks)
    ensures AllTaken(p, tasks, 0)
  {}

  lemma TakenNext(p: Plan, was: Tasks, tasks: Tasks, n: nat)
    requires n < |p.steps| && AllTaken(p, was, n) && (tasks == was || tasks == was - {p.steps[n].id}) && Taken(p.steps[n].id, tasks)
    ensures AllTaken(p, tasks, n + 1)
  {}

  lemma TakenAll(p: Plan, tasks: Tasks)
    requires AllTaken(p, tasks, |p.steps|)
    requires forall id :: id in tasks ==> exists k :: 0 <= k < |p.steps| && p.steps[k].id == id
    ensures NoneMade(tasks)
  {
    forall id | id in tasks && tasks[id].Some? ensures !tasks[id].value.Made? {
      var k :| 0 <= k < |p.steps| && p.steps[k].id == id;
      assert Taken(p.steps[k].id, tasks);
    }
  }

  /** No value is left with the task of a step. */
  ghost predicate Taken(id: StepId, tasks: Tasks) { id in tasks && tasks[id].Some? ==> !tasks[id].value.Made? }

  // ----- The scheduler -----

  class Scheduler {
    const p: Plan
    const j: Journal
    const world: World
    /** How many rejections had been forgotten when the run began. */
    ghost const forgotten: nat
    /** The executor's copy of the row, its tasks, the inputs known to be pending and the inputs polled in this run. */
    var s: State
    var tasks: Tasks
    var waiting: set<StepId>
    var polled: set<StepId>

    constructor (p: Plan, j: Journal, world: World)
      ensures this.p == p && this.j == j && s == j.row && tasks == map[] && polled == {} && waiting == Members(j.row.waiting)
      ensures this.world == world && forgotten == j.row.forgotten
    {
      this.p, this.j, this.s, this.tasks, this.polled, this.waiting := p, j, j.row, map[], {}, Members(j.row.waiting);
      this.world, this.forgotten := world, j.row.forgotten;
    }

    ghost predicate Saved()
      reads j
    {
      WellFormed(p) && Kept(p, j.row, j.log, j.starts, j.made) && j.row.forgotten == forgotten
    }

    ghost predicate Steady()
      reads this, j
    {
      && Saved() && s == j.row && Fits(p, s, tasks.Keys, waiting, polled) && Apart(tasks, s.results, j.made)
      && (world.Helpful? && !s.rejected ==> polled <= s.results.Keys)
    }

    method Save(t: State)
      requires Saved() && StateOk(p, t) && Moves(j.row, t) && t.forgotten == forgotten && Genuine(t.results, j.made)
      modifies this`s, j
      ensures Saved() && s == t == j.row && j.log == old(j.log) + [t] && j.starts == old(j.starts) && j.vouched == old(j.vouched)
      ensures j.made == old(j.made) && j.answered == old(j.answered)
    {
      hide StateOk, Linked, Counted, WellFormed;
      KeptMore(p, j.row, j.log, j.starts, j.made, t);
      j.Save(t);
      s := t;
    }

    method SetStatus(status: Status)
      requires Saved() && s == j.row && status != SourcesInvalid && status != Completed && (s.rejected ==> s.attempts != map[])
      modifies this`s, j
      ensures Saved() && s == j.row == old(s).(status := status) && (old(Steady()) ==> Steady())
      ensures old(j.log) <= j.log && j.starts == old(j.starts) && j.made == old(j.made) && j.answered == old(j.answered)
    {
      hide StateOk, Linked, Counted, WellFormed, Moves, Fits;
      RowOk(p, j.row, j.log, j.starts, j.made);
      RowGenuine(p, j.row, j.log, j.starts, j.made);
      StatusMoves(p, s, status);
      if Fits(p, s, tasks.Keys, waiting, polled) { FitsStatus(p, s, tasks.Keys, waiting, polled, status); }
      Save(s.(status := status));
    }

    /** While the executor waits, running tasks may end, in any way. */
    method Await()
      requires Saved() && s == j.row && Apart(tasks, s.results, j.made)
      modifies this`tasks, j`made
      ensures Saved() && Apart(tasks, s.results, j.made) && Evolves(old(tasks), tasks) && Remembers(old(j.made), j.made, tasks)
    {
      hide Kept, WellFormed, Apart;
      for i := 0 to |p.steps|
        invariant Saved() && Apart(tasks, s.results, j.made) && Evolves(old(tasks), tasks) && Remembers(old(j.made), j.made, tasks)
      {
        var id := p.steps[i].id;
        if id in tasks && tasks[id].None? {
          var ended: bool := *;
          if ended { End(id); }
        }
      }
    }

    /** A running task ends. */
    method End(id: StepId)
      requires Saved() && s == j.row && Apart(tasks, s.results, j.made) && id in tasks && tasks[id].None?
      modifies this`tasks, j`made
      ensures Saved() && Apart(tasks, s.results, j.made) && Evolves(old(tasks), tasks) && id in tasks && tasks[id].Some?
      ensures forall other :: other in tasks && other != id ==> tasks[other] == old(tasks)[other]
      ensures Remembers(old(j.made), j.made, tasks)
    {
      hide Kept, WellFormed;
      ghost var made := j.made;
      var end := j.Finish(id);
      if end.Made? { MadeMore(p, j.row, j.log, j.starts, made, id, end.value); }
      tasks := tasks[id := Some(end)];
    }

    /** Asks the verifier about the run as it stands; a rejection drops every result. */
    method Verify() returns (out: Outcome)
      requires Saved() && s == j.row && (s.rejected ==> s.attempts != map[]) && Apart(tasks, s.results, j.made)
      modifies this, j
      ensures Saved() && old(j.log) <= j.log && j.starts == old(j.starts) && (out.Crashed? || s == j.row)
      ensures old(Steady()) && !out.Crashed? ==> Steady()
      ensures old(s).rejected ==> j.row.rejected
      ensures Evolves(old(tasks), tasks) && waiting == old(waiting) && polled == old(polled) && Remembers(old(j.made), j.made, tasks)
      ensures j.answered == old(j.answered)
      ensures out.Continue? || out.Interrupted? || out.Crashed? ==> s == old(s)
      ensures out.Continue? ==> j.vouched == Some(s.results)
      ensures world.Helpful? ==> out.Continue?
      ensures world.Distrusting? ==> out == Raised(Invalid) && s.attempts == old(s).attempts
      ensures out.Continue? || out.Interrupted? || out.Crashed? || (out.Raised? && Tells(out.code, s))
      ensures out.Raised? ==> (s.rejected && s.status == SourcesInvalid && s.attempts == old(s).attempts) || s == old(s).(status := VerificationUnavailable)
      ensures out.Raised? ==> Tells(out.code, s)
    {
      hide StateOk, Linked, Counted, WellFormed, Moves, Fits;
      RowOk(p, j.row, j.log, j.starts, j.made);
      Await();
      var verdict: Verdict := *;
      match if world.Helpful? then Approved else if world.Distrusting? then Rejected else verdict {
        case Approved =>
          j.Vouch(s.results);
          out := Continue;
        case Stopped(deadline) => out := Interrupted(deadline);
        case Lost => out := Crashed;
        case Unreachable =>
          SetStatus(VerificationUnavailable);
          out := Raised(Unavailable);
        case Rejected =>
          RejectMoves(p, s);
          if Fits(p, s, tasks.Keys, waiting, polled) { FitsStatus(p, s, tasks.Keys, waiting, polled, SourcesInvalid); }
          Save(s.(status := SourcesInvalid, results := map[], rejected := true));
          out := Raised(Invalid);
      }
    }

    /** Commits one result; `fits` is false when the results would be too large together, and nothing changes. */
    method Publish(id: StepId, value: Value) returns (fits: bool)
      requires Steady() && !s.rejected && id in Ids(p) && id !in s.results && Ready(p, s.results, id)
      requires id in j.made && j.made[id] == value
      modifies this, j
      ensures Steady() && old(j.log) <= j.log && j.starts == old(j.starts) && polled == old(polled) && !s.rejected && j.made == old(j.made)
      ensures j.answered == old(j.answered)
      ensures fits ==> s.results == old(s).results[id := value] && tasks == old(tasks) - {id} && waiting == old(waiting) - {id}
      ensures fits ==> s.attempts == old(s).attempts && s.status == old(s).status
      ensures !fits ==> s == old(s) && tasks == old(tasks) && waiting == old(waiting)
      ensures world.Helpful? ==> fits
    {
      hide StateOk, Linked, Counted, WellFormed, Moves, Fits, InOrder;
      fits := *;
      fits := fits || world.Helpful?;
      if fits {
        RowOk(p, j.row, j.log, j.starts, j.made);
        FitsWaiting(p, s, tasks.Keys, waiting, polled);
        PublishMoves(p, s, waiting, id, value);
        FitsPublish(p, s, tasks.Keys, waiting, polled, id, value);
        assert (tasks - {id}).Keys == tasks.Keys - {id};
        Save(Published(p, s, waiting, id, value));
        waiting := waiting - {id};
        tasks := tasks - {id};
      }
    }

    /** Notes that an input is pending. */
    method Defer(i: nat) returns (out: Outcome)
      requires Steady() && !s.rejected && i < |p.steps| && !world.Helpful?
      requires p.steps[i].id !in s.results && p.steps[i].id !in tasks
      modifies this, j
      ensures Saved() && old(j.log) <= j.log && j.starts == old(j.starts) && j.answered == old(j.answered) && (out.Crashed? || Steady())
      ensures out.Continue? ==> !s.rejected && tasks.Keys == old(tasks).Keys && s.results == old(s).results
      ensures out.Continue? ==> waiting == old(waiting) + {p.steps[i].id} && polled == old(polled) + {p.steps[i].id}
      ensures out.Continue? || out.Interrupted? || out.Crashed? || (out.Raised? && Tells(out.code, s))
      ensures out.Interrupted? ==> !s.rejected
      ensures s.rejected && !out.Crashed? ==> s.status == SourcesInvalid
    {
      hide StateOk, Linked, Counted, WellFormed, Moves, Fits, InOrder, Ready, Ids, Apart;
      var id := p.steps[i].id;
      out := Verify();
      if !out.Continue? { return; }
      assert id in Ids(p) by { StepIds(p, i); }
      RowOk(p, j.row, j.log, j.starts, j.made);
      RowGenuine(p, j.row, j.log, j.starts, j.made);
      AskMoves(p, s, tasks.Keys, waiting, polled, id);
      Save(Asked(p, s, waiting, id));
      waiting, polled := waiting + {id}, polled + {id};
    }

    /** Commits the value of an input. */
    method Accept(i: nat, value: Value) returns (out: Outcome)
      requires Steady() && !s.rejected && i < |p.steps| && Ready(p, s.results, p.steps[i].id)
      requires p.steps[i].id !in s.results && p.steps[i].id !in tasks && p.steps[i].id in j.made && j.made[p.steps[i].id] == value
      modifies this, j
      ensures Saved() && old(j.log) <= j.log && j.starts == old(j.starts) && j.answered == old(j.answered) && (out.Crashed? || Steady())
      ensures out.Continue? ==> !s.rejected && tasks.Keys == old(tasks).Keys && s.results == old(s).results[p.steps[i].id := value]
      ensures world.Helpful? ==> out.Continue?
      ensures out.Continue? || out.Interrupted? || out.Crashed? || (out.Raised? && Tells(out.code, s))
      ensures out.Interrupted? ==> !s.rejected
      ensures s.rejected && !out.Crashed? ==> s.status == SourcesInvalid
    {
      hide StateOk, Linked, Counted, WellFormed, Moves, Fits, InOrder, Ready, Ids, Kept, Apart;
      var id := p.steps[i].id;
      out := Verify();
      if !out.Continue? { return; }
      assert id in Ids(p) by { StepIds(p, i); }
      var fits := Publish(id, value);
      if !fits {
        SetStatus(Failed);
        return Raised(BadPayload);
      }
      FitsPolled(p, s, tasks.Keys, waiting, polled, id);
      polled := polled + {id};
      assert old(tasks).Keys - {id} == old(tasks).Keys;
    }

    /** Asks an input for its value, once in a run, and does with the answer what it says. */
    method Poll(i: nat) returns (out: Outcome)
      requires Steady() && !s.rejected && i < |p.steps| && p.steps[i].Input?
      requires p.steps[i].id !in s.results && p.steps[i].id !in tasks && Ready(p, s.results, p.steps[i].id)
      modifies this, j
      ensures Saved() && old(j.log) <= j.log && j.starts == old(j.starts) && (out.Crashed? || Steady())
      ensures out.Continue? ==> !s.rejected && tasks.Keys == old(tasks).Keys
      ensures out.Continue? ==> Answered(old(s).results, s.results, old(waiting) * old(polled), waiting * polled, p.steps[i].id)
      ensures out.Continue? ==> j.answered.Given? || j.answered.Pending?
      ensures out.Continue? ==> s.results == if j.answered.Given? then old(s).results[p.steps[i].id := j.answered.value] else old(s).results
      ensures j.answered.NoStorage? ==> out == Raised(Unavailable)
      ensures j.answered.PollBroke? ==> out == Raised(PollFailed)
      ensures world.Helpful? ==> out.Continue? && (old(tasks) == map[] ==> tasks == map[])
      ensures out.Continue? || out.Interrupted? || out.Crashed? || (out.Raised? && Tells(out.code, s))
      ensures out.Interrupted? ==> !s.rejected
      ensures s.rejected && !out.Crashed? ==> s.status == SourcesInvalid
    {
      hide StateOk, Linked, Counted, WellFormed, Moves, Fits, InOrder, Ready, Ids, Kept;
      var id := p.steps[i].id;
      Await();
      ghost var made := j.made;
      var answer := j.Ask(id, world.Helpful?);
      if answer.Given? { MadeMore(p, j.row, j.log, j.starts, made, id, answer.value); }
      assert Apart(tasks, s.results, j.made);
      match answer {
        case PollStopped(deadline) => out := Interrupted(deadline);
        case PollLost => out := Crashed;
        case NoStorage =>
          SetStatus(VerificationUnavailable);
          out := Raised(Unavailable);
        case PollBroke =>
          SetStatus(Failed);
          out := Raised(PollFailed);
        case Pending => out := Defer(i);
        case Given(value) => out := Accept(i, value);
      }
    }

    /** Records the one attempt of a step and starts its task. */
    method Admit(i: nat)
      requires Steady() && !s.rejected && i < |p.steps| && |tasks.Keys| < p.width && j.vouched == Some(s.results)
      requires p.steps[i].id !in s.results && p.steps[i].id !in tasks && Ready(p, s.results, p.steps[i].id)
      modifies this`s, this`tasks, j
      ensures Steady() && !s.rejected && s.results == old(s).results && tasks.Keys == old(tasks).Keys + {p.steps[i].id}
      ensures old(j.log) <= j.log && j.starts == old(j.starts) + [p.steps[i].id]
    {
      hide StateOk, Linked, Counted, WellFormed, Moves, Fits, InOrder, Ready, Ids;
      hide Launched, Apart, Counted;
      var id := p.steps[i].id;
      Admission(p, j.row, j.log, j.starts, j.made, tasks.Keys, waiting, polled, i);
      RowGenuine(p, j.row, j.log, j.starts, j.made);
      LaunchKeeps(p, s, i);
      Save(Launched(p, s, i));
      ApartMore(tasks, s.results, j.made, id);
      tasks := tasks[id := None];
      assert tasks.Keys == old(tasks).Keys + {id};
      j.Start(id);
      StillKept(p, j.row, j.log, old(j.starts), j.made, j.starts);
    }

    /** Admits a step that is ready, if the evidence still stands and no task has ended meanwhile. */
    method Launch(i: nat) returns (out: Outcome)
      requires Steady() && !s.rejected && i < |p.steps| && p.steps[i].Work? && |tasks.Keys| < p.width
      requires p.steps[i].id !in s.results && p.steps[i].id !in tasks && Ready(p, s.results, p.steps[i].id)
      modifies this, j
      ensures Saved() && old(j.log) <= j.log && old(j.starts) <= j.starts && (out.Crashed? || Steady())
      ensures out.Continue? ==> !s.rejected && s.results == old(s).results && waiting == old(waiting) && polled == old(polled)
      ensures j.starts != old(j.starts) ==> out.Continue?
      ensures world.Helpful? ==> out.Continue? && (old(tasks) == map[] ==> j.starts != old(j.starts))
      ensures out.Continue? ==> AnyDone(tasks) || tasks.Keys == old(tasks).Keys + {p.steps[i].id}
      ensures out.Continue? || out.Interrupted? || out.Crashed? || (out.Raised? && Tells(out.code, s))
      ensures out.Interrupted? ==> !s.rejected
      ensures s.rejected && !out.Crashed? ==> s.status == SourcesInvalid
    {
      hide StateOk, Linked, Counted, WellFormed, Moves, Fits, InOrder, Ready, Ids, Kept;
      out := Verify();
      if out.Continue? && !AnyDone(tasks) { Admit(i); }
    }

    /** What a pass does about one step. */
    method Visit(i: nat) returns (out: Outcome)
      requires Steady() && !s.rejected && i < |p.steps|
      modifies this, j
      ensures Saved() && old(j.log) <= j.log && old(j.starts) <= j.starts && (out.Crashed? || Steady())
      ensures out.Continue? ==> !s.rejected && |s.results| >= |old(s).results| && More(p, old(s).results, s.results)
      ensures out.Continue? && !AnyDone(tasks) && |s.results| == |old(s).results| ==>
        SettledUpto(p, old(s).results, old(tasks).Keys, old(waiting) * old(polled), i) ==>
          SettledUpto(p, s.results, tasks.Keys, waiting * polled, i + 1)
      ensures j.starts != old(j.starts) ==> out.Continue? && Missing(p, old(s).results)
      ensures world.Helpful? ==> out.Continue?
      ensures world.Helpful? && old(tasks) == map[] && j.starts == old(j.starts) ==>
        tasks == map[] && (Missing(p, old(s).results) ==> Missing(p, s.results))
      ensures out.Continue? || out.Interrupted? || out.Crashed? || (out.Raised? && Tells(out.code, s))
      ensures out.Interrupted? ==> !s.rejected
      ensures s.rejected && !out.Crashed? ==> s.status == SourcesInvalid
    {
      hide StateOk, Linked, Counted, WellFormed, Moves, Fits, InOrder, Ready, Ids, Kept, SettledUpto, Answered;
      var step := p.steps[i];
      out := Continue;
      if step.id in s.results || step.id in tasks || !Ready(p, s.results, step.id) {
        SettlesAsIs(p, s.results, tasks.Keys, waiting * polled, i);
      } else if step.Input? {
        if step.id in polled {
          FitsWaiting(p, s, tasks.Keys, waiting, polled);
          SettlesAsIs(p, s.results, tasks.Keys, waiting * polled, i);
          return;
        }
        out := Verify();
        if !out.Continue? || AnyDone(tasks) { return; }
        out := Poll(i);
        if out.Continue? {
          StillMissing(p, old(s).results, s.results, i, old(waiting) * old(polled), waiting * polled);
          AnsweredSettles(p, old(s).results, s.results, tasks.Keys, old(waiting) * old(polled), waiting * polled, i);
        }
      } else if |tasks.Keys| < p.width {
        out := Launch(i);
        if out.Continue? && !AnyDone(tasks) { LaunchSettles(p, s.results, old(tasks).Keys, waiting * polled, i); }
      } else {
        SettlesAsIs(p, s.results, tasks.Keys, waiting * polled, i);
      }
    }

    /**
     * One pass over the plan, cut short when a task has ended. When it leaves no task running and no new result,
     * everything that could go on is an input that has been asked for.
     */
    method Pass() returns (out: Outcome)
      requires Steady() && !s.rejected
      modifies this, j
      ensures Saved() && old(j.log) <= j.log && old(j.starts) <= j.starts && (out.Crashed? || Steady())
      ensures out.Continue? ==> !s.rejected && |s.results| >= |old(s).results| && More(p, old(s).results, s.results)
      ensures out.Continue? && tasks == map[] && |s.results| == |old(s).results| ==> Stuck(p, s.results, waiting * polled)
      ensures out.Continue? && !AnyDone(tasks) && |s.results| == |old(s).results| ==>
        SettledUpto(p, s.results, tasks.Keys, waiting * polled, |p.steps|)
      ensures j.starts != old(j.starts) ==> Missing(p, old(s).results)
      ensures world.Helpful? ==> out.Continue?
      ensures world.Helpful? && old(tasks) == map[] && j.starts == old(j.starts) ==>
        tasks == map[] && (Missing(p, old(s).results) ==> Missing(p, s.results))
      ensures out.Continue? || out.Interrupted? || out.Crashed? || (out.Raised? && Tells(out.code, s))
      ensures out.Interrupted? ==> !s.rejected
      ensures s.rejected && !out.Crashed? ==> s.status == SourcesInvalid
    {
      hide StateOk, Linked, Counted, WellFormed, Moves, Fits, InOrder, Ready, Ids, Kept, SettledUpto, Stuck;
      out := Continue;
      NoneSettled(p, s.results, tasks.Keys, waiting * polled);
      for i := 0 to |p.steps|
        invariant out.Continue? && Steady() && !s.rejected
        invariant old(j.log) <= j.log && old(j.starts) <= j.starts && |s.results| >= |old(s).results|
        invariant AnyDone(tasks) || (|s.results| == |old(s).results| ==> SettledUpto(p, s.results, tasks.Keys, waiting * polled, i))
        invariant More(p, old(s).results, s.results) && (j.starts != old(j.starts) ==> Missing(p, old(s).results))
        invariant world.Helpful? && old(tasks) == map[] && j.starts == old(j.starts) ==>
          tasks == map[] && (Missing(p, old(s).results) ==> Missing(p, s.results))
      {
        if AnyDone(tasks) { return; }
        out := Visit(i);
        if !out.Continue? { return; }
      }
      assert tasks == map[] ==> tasks.Keys == {};
      if tasks == map[] { AllSettled(p, s.results, waiting * polled, |p.steps|); }
    }

    /** Waits until some task has ended. */
    method WaitAny() returns (out: Outcome)
      requires Saved() && s == j.row && Apart(tasks, s.results, j.made) && tasks != map[]
      modifies this`tasks, j`made
      ensures Saved() && Apart(tasks, s.results, j.made)
      ensures Evolves(old(tasks), tasks) && (out.Continue? || out.Interrupted? || out.Crashed?)
      ensures out.Continue? ==> AnyDone(tasks)
    {
      hide Kept, WellFormed, Apart;
      Await();
      out := *;
      if !out.Interrupted? && !out.Crashed? {
        out := Continue;
        if !AnyDone(tasks) {
          var id :| id in tasks;
          End(id);
        }
      }
    }

    /** Takes up a task that has ended: commits what it made, or tells why there is nothing to commit. */
    method TakeUp(i: nat) returns (failure: Option<Code>)
      requires Steady() && !s.rejected && i < |p.steps| && p.steps[i].id in tasks && tasks[p.steps[i].id].Some?
      modifies this, j
      ensures Steady() && !s.rejected && old(j.log) <= j.log && j.starts == old(j.starts) && j.made == old(j.made)
      ensures s.status == old(s).status && waiting <= old(waiting)
      ensures failure.None? ==> p.steps[i].id in s.results && old(tasks)[p.steps[i].id] == Some(Made(s.results[p.steps[i].id]))
      ensures failure.None? ==> p.steps[i].id !in old(s).results && s.results == old(s).results[p.steps[i].id := s.results[p.steps[i].id]]
      ensures failure.None? ==> tasks == old(tasks) - {p.steps[i].id}
      ensures failure.Some? ==> s == old(s) && tasks == old(tasks)
      ensures var end := old(tasks)[p.steps[i].id].value;
        failure.Some? ==> failure == Some(if end.TooLarge? || end.Made? then BadPayload else StepFailed)
      ensures failure.Some? && world.Helpful? ==> !tasks[p.steps[i].id].value.Made?
    {
      hide StateOk, Linked, Counted, WellFormed, Moves, Fits, InOrder, Ready, Ids, Kept;
      var id := p.steps[i].id;
      match tasks[id].value {
        case Withdrawn => failure := Some(StepFailed);
        case Broke => failure := Some(StepFailed);
        case TooLarge => failure := Some(BadPayload);
        case Made(value) =>
          TaskFacts(p, j.row, j.log, j.starts, j.made, tasks.Keys, waiting, polled, id);
          var fits := Publish(id, value);
          failure := if fits then None else Some(BadPayload);
      }
    }

    /** Takes up every task that has ended, in plan order, even if one of them fails. */
    method TakeAll() returns (failed: bool, code: Code)
      requires Steady() && !s.rejected
      modifies this, j
      ensures Steady() && !s.rejected && s.status == old(s).status
      ensures old(j.log) <= j.log && j.starts == old(j.starts) && j.made == old(j.made)
      ensures Progressed(p, old(tasks), old(s).results, tasks, s.results) && (world.Helpful? ==> NoneMade(tasks))
      ensures (failed <==> AnyDone(tasks)) && code == if Oversized(tasks) then BadPayload else StepFailed
    {
      hide StateOk, Linked, Counted, WellFormed, Moves, Fits, InOrder, Ready, Ids, Kept, Progressed, AllTaken, Apart, Judged, Oversized, AnyDone, NoneMade;
      failed, code := false, StepFailed;
      ghost var left := 0;
      TasksInPlan(p, j.row, j.log, j.starts, j.made, tasks.Keys, waiting, polled);
      NoProgress(p, tasks, s.results);
      JudgedNone(p, tasks);
      TakenNone(p, tasks);
      for i := 0 to |p.steps|
        invariant Steady() && !s.rejected && s.status == old(s).status
        invariant old(j.log) <= j.log && j.starts == old(j.starts) && j.made == old(j.made)
        invariant Progressed(p, old(tasks), old(s).results, tasks, s.results) && tasks.Keys <= old(tasks).Keys
        invariant Judged(p, tasks, i, failed, code, left) && (world.Helpful? ==> AllTaken(p, tasks, i))
      {
        var id := p.steps[i].id;
        ghost var was, y := tasks, s.results;
        if id in tasks && tasks[id].Some? {
          var failure := TakeUp(i);
          if failure.Some? {
            JudgedFailed(p, tasks, i, failed, code, left);
            if !failed || failure == Some(BadPayload) { left := i; }
            failed, code := true, if failure == Some(BadPayload) then BadPayload else code;
          } else {
            JudgedTaken(p, was, i, failed, code, left);
            ProgressMore(p, old(tasks), old(s).results, was, y, id, s.results[id]);
          }
        } else {
          JudgedSame(p, tasks, i, failed, code, left);
        }
        if world.Helpful? { TakenNext(p, was, tasks, i); }
      }
      JudgedAll(p, tasks, failed, code, left);
      if world.Helpful? { TakenAll(p, tasks); }
    }

    /** What has ended is taken up; a failure among it ends the run. */
    method Collect() returns (out: Outcome)
      requires Steady() && !s.rejected && AnyDone(tasks)
      modifies this, j
      ensures Saved() && old(j.log) <= j.log && j.starts == old(j.starts) && Steady() && !s.rejected
      ensures out.Continue? ==> |s.results| > |old(s).results|
      ensures More(p, old(s).results, s.results) && Committed(old(tasks), old(s).results, s.results)
      ensures out.Continue? || world.Helpful? ==> AllCommitted(old(tasks), s.results)
      ensures out.Continue? <==> !AnyDone(tasks)
      ensures out.Continue? || (out == Raised(if Oversized(tasks) then BadPayload else StepFailed) && Tells(out.code, s))
      ensures Left(old(tasks), tasks, s.results)
      ensures out.Raised? && world.Helpful? ==> AnyBroken(tasks)
    {
      hide StateOk, Linked, Counted, WellFormed, Moves, Fits, InOrder, Ready, Ids, Kept, Progressed, Oversized, Left, Committed, AllCommitted, More;
      hide AnyDone, AnyBroken, NoneMade;
      var failed, code := TakeAll();
      ProgressTells(p, old(tasks), old(s).results, tasks, s.results);
      if !failed || world.Helpful? { ProgressDone(p, old(tasks), old(s).results, tasks, s.results); }
      if failed {
        if world.Helpful? { BrokenLeft(tasks); }
        SetStatus(Failed);
        return Raised(code);
      }
      ProgressGrows(p, old(tasks), old(s).results, tasks, s.results);
      out := Continue;
    }

    /** Waits for a task to end, and takes up all that have. */
    method Gather() returns (out: Outcome)
      requires Steady() && !s.rejected && tasks != map[]
      modifies this, j
      ensures Saved() && old(j.log) <= j.log && j.starts == old(j.starts) && Steady() && !s.rejected
      ensures More(p, old(s).results, s.results) && (out.Continue? ==> |s.results| > |old(s).results|)
      ensures out.Continue? || out.Interrupted? || out.Crashed? || (out.Raised? && Tells(out.code, s))
      ensures out.Raised? && world.Helpful? ==> AnyBroken(tasks)
    {
      hide StateOk, Linked, Counted, Moves, Fits, InOrder, Ready, Ids, Kept, AnyDone, AnyBroken, Oversized, Left, Committed, AllCommitted, Tells;
      out := WaitAny();
      if !out.Continue? { return; }
      out := Collect();
    }

    /** Withdrawn, every task ends, one way or another. */
    method EndAll()
      requires Steady()
      modifies this`tasks, j`made
      ensures Steady() && Evolves(old(tasks), tasks) && forall id :: id in tasks ==> tasks[id].Some?
    {
      hide Kept, WellFormed, Apart, Fits;
      TasksInPlan(p, j.row, j.log, j.starts, j.made, tasks.Keys, waiting, polled);
      for i := 0 to |p.steps|
        invariant Saved() && Apart(tasks, s.results, j.made) && Evolves(old(tasks), tasks)
        invariant forall k :: 0 <= k < i && p.steps[k].id in tasks ==> tasks[p.steps[k].id].Some?
      {
        if p.steps[i].id in tasks && tasks[p.steps[i].id].None? { End(p.steps[i].id); }
      }
      forall id | id in tasks ensures tasks[id].Some? {
        var k :| 0 <= k < |p.steps| && p.steps[k].id == id;
      }
    }

    /** The end of every run: tasks are withdrawn, and what they still produce is committed unless the evidence is rejected. */
    method Drain(ended: Outcome) returns (out: Outcome)
      requires Steady() && (s.rejected ==> s.status == SourcesInvalid)
      modifies this, j
      ensures Saved() && old(j.log) <= j.log && j.starts == old(j.starts) && (out.Crashed? || Steady())
      ensures out == ended || out.Interrupted? || out.Crashed?
      ensures old(s).rejected && !out.Crashed? ==> s == old(s) && (out.Interrupted? ==> ended.Interrupted? || s.attempts != map[])
      ensures !old(s).rejected ==> !s.rejected && More(p, old(s).results, s.results)
      ensures !out.Crashed? ==> forall id :: id in tasks ==> tasks[id].Some?
      ensures !out.Crashed? ==> forall id :: id in s.results && id !in old(s).results ==> id in old(tasks) && id in j.made && s.results[id] == j.made[id]
      ensures !out.Crashed? && !old(s).rejected && world.Helpful? ==> forall id :: id in tasks ==> !tasks[id].value.Made?
      ensures !out.Crashed? ==> s.status == old(s).status && (AnyBroken(old(tasks)) ==> AnyBroken(tasks))
      ensures old(tasks) == map[] ==> out == ended && s == old(s) && j.vouched == old(j.vouched)
    {
      hide StateOk, Linked, Counted, WellFormed, Moves, Fits, InOrder, Ready, Ids, Kept, Progressed, Apart, Oversized, AnyDone;
      out := ended;
      if tasks == map[] { return; }
      var id0 :| id0 in tasks;
      FitsWaiting(p, s, tasks.Keys, waiting, polled);
      assert id0 in s.attempts;
      EndAll();
      RowRejects(p, j.row, j.log, j.starts, j.made);
      var lost, interrupted, deadline: bool := *, *, *;
      if lost { return Crashed; }
      ghost var ends := tasks;
      NoProgress(p, tasks, s.results);
      if s.status != SourcesInvalid { var failed, code := TakeAll(); }
      ProgressTells(p, ends, old(s).results, tasks, s.results);
      if AnyBroken(old(tasks)) { BrokenStays(old(tasks), ends, tasks, s.results); }
      RowGenuine(p, j.row, j.log, j.starts, j.made);
      if interrupted { out := Interrupted(deadline); }
    }

    /** Schedules, and then drains whatever way the schedule has ended. */
    method Work(ghost rank: map<StepId, nat>) returns (out: Outcome)
      requires Steady() && !s.rejected && tasks == map[] && Ranked(p, rank)
      modifies this, j
      ensures Saved() && old(j.log) <= j.log && old(j.starts) <= j.starts && (out.Crashed? || s == j.row)
      ensures out.Returned? ==> s.status == Completed && !s.rejected && out.results == s.results && s.results.Keys == Ids(p) && j.vouched == Some(s.results)
      ensures out.Waiting? ==> s.status == AwaitingInput && !s.rejected && out.results == s.results && AllWaiting(p, s) && j.vouched == Some(s.results)
      ensures !out.Continue? && (out.Raised? ==> Tells(out.code, s))
      ensures out.Interrupted? && s.rejected ==> s.attempts != map[]
      ensures j.starts != old(j.starts) ==> Missing(p, old(s).results)
      ensures world.Helpful? && Missing(p, old(s).results) ==> j.starts != old(j.starts)
      ensures world.Helpful? ==> !out.Waiting? && (out.Raised? ==> s.Unresolved() != {}) && (!Missing(p, old(s).results) ==> out.Returned?)
    {
      hide StateOk, Linked, Counted, Moves, Fits, InOrder, Ready, Ids, Kept, AllWaiting, WellFormed, Ranked, Missing, Apart;
      out := Schedule(rank);
      if !out.Crashed? {
        ghost var was := s;
        out := Drain(out);
        if !out.Crashed? && !s.rejected && AnyBroken(tasks) { TasksUnresolved(p, s, tasks, waiting, polled); }
        if out.Raised? { SameExplains(out.code, was, s); }
      }
    }

    /** Nothing runs and nothing was gained: the run waits for the inputs it has asked for. */
    method Idle(ghost rank: map<StepId, nat>) returns (out: Outcome)
      requires Steady() && !s.rejected && tasks == map[] && Ranked(p, rank)
      requires Stuck(p, s.results, waiting * polled) && |s.results| < |p.steps|
      modifies this, j
      ensures Saved() && old(j.log) <= j.log && j.starts == old(j.starts) && (out.Crashed? || Steady())
      ensures out.Waiting? || out.Raised? || out.Interrupted? || out.Crashed?
      ensures out.Waiting? ==> tasks == map[] && s.status == AwaitingInput && !s.rejected && out.results == s.results && AllWaiting(p, s) && j.vouched == Some(s.results)
      ensures (out.Raised? ==> Tells(out.code, s)) && (out.Interrupted? ==> !s.rejected)
      ensures s.rejected && !out.Crashed? ==> s.status == SourcesInvalid
      ensures !world.Helpful?
    {
      hide StateOk, Linked, Counted, Moves, Fits, InOrder, Ready, Ids, Kept, AllWaiting, WellFormed, Ranked, Stuck;
      StuckAsked(p, s.results, waiting * polled, waiting);
      // The error "invalid_dependencies" would be raised if no input were awaited; but an accepted plan always has something ready.
      NoDeadEnd(p, rank, s.results);
      assert waiting != {};
      out := Verify();
      if !out.Continue? { return; }
      assert tasks.Keys == {} && tasks == map[];
      WaitingRow(p, j.row, j.log, j.starts, j.made, waiting, polled);
      RowGenuine(p, j.row, j.log, j.starts, j.made);
      Save(s.(status := AwaitingInput, inflight := None, inflightSteps := []));
      out := Waiting(s.results);
    }

    /** All results are there: the verifier is asked once more about exactly what is returned. */
    method Complete() returns (out: Outcome)
      requires Steady() && !s.rejected && |s.results| >= |p.steps|
      modifies this, j
      ensures Saved() && old(j.log) <= j.log && j.starts == old(j.starts) && (out.Crashed? || Steady())
      ensures out.Returned? || out.Raised? || out.Interrupted? || out.Crashed?
      ensures out.Returned? ==> tasks == map[] && s.status == Completed && !s.rejected && out.results == s.results && s.results.Keys == Ids(p) && j.vouched == Some(s.results)
      ensures (out.Raised? ==> Tells(out.code, s)) && (out.Interrupted? ==> !s.rejected)
      ensures s.rejected && !out.Crashed? ==> s.status == SourcesInvalid
      ensures world.Helpful? ==> out.Returned? && !Missing(p, old(s).results)
    {
      hide StateOk, Linked, Counted, Moves, Fits, InOrder, Ready, Ids, Kept, WellFormed, Missing;
      out := Verify();
      if !out.Continue? { return; }
      CompleteRow(p, j.row, j.log, j.starts, j.made, tasks.Keys, waiting, polled);
      RowGenuine(p, j.row, j.log, j.starts, j.made);
      NothingMissing(p, s.results);
      Save(s.(status := Completed, inflight := None, inflightSteps := []));
      out := Returned(s.results);
    }

    /** Everything between the first check of the row and the draining of the tasks. */
    method Schedule(ghost rank: map<StepId, nat>) returns (out: Outcome)
      requires Steady() && !s.rejected && tasks == map[] && Ranked(p, rank)
      modifies this, j
      ensures Saved() && old(j.log) <= j.log && old(j.starts) <= j.starts && (out.Crashed? || Steady())
      ensures out.Returned? ==> tasks == map[] && s.status == Completed && !s.rejected && out.results == s.results && s.results.Keys == Ids(p) && j.vouched == Some(s.results)
      ensures out.Waiting? ==> tasks == map[] && s.status == AwaitingInput && !s.rejected && out.results == s.results && AllWaiting(p, s) && j.vouched == Some(s.results)
      ensures !out.Continue? && (out.Raised? ==> Tells(out.code, s)) && (out.Interrupted? ==> !s.rejected)
      ensures s.rejected && !out.Crashed? ==> s.status == SourcesInvalid
      ensures j.starts != old(j.starts) ==> Missing(p, old(s).results)
      ensures world.Helpful? && Missing(p, old(s).results) ==> j.starts != old(j.starts)
      ensures world.Helpful? ==> !out.Waiting? && (out.Raised? ==> AnyBroken(tasks) && !s.rejected) && (!Missing(p, old(s).results) ==> out.Returned?)
    {
      hide StateOk, Linked, Counted, Moves, Fits, InOrder, Ready, Ids, Kept, AllWaiting, WellFormed, Ranked, Missing, Stuck;
      hide AnyDone, AnyBroken, Oversized, Left, Committed, AllCommitted, Tells;
      while |s.results| < |p.steps|
        invariant Steady() && !s.rejected && old(j.log) <= j.log && old(j.starts) <= j.starts
        invariant More(p, old(s).results, s.results) && (j.starts != old(j.starts) ==> Missing(p, old(s).results))
        invariant world.Helpful? && j.starts == old(j.starts) ==> tasks == map[] && (Missing(p, old(s).results) ==> Missing(p, s.results))
        decreases |p.steps| - |s.results|
      {
        var before := s.results;
        out := Pass();
        MissingBefore(p, old(s).results, before);
        if !out.Continue? { return; }
        RowSize(p, j.row, j.log, j.starts, j.made);
        if tasks == map[] {
          if |s.results| > |before| { continue; }
          out := Idle(rank);
          return;
        }
        out := Gather();
        if !out.Continue? { return; }
        RowSize(p, j.row, j.log, j.starts, j.made);
      }
      out := Complete();
    }
  }

  lemma MissingBefore(p: Plan, x: map<StepId, Value>, y: map<StepId, Value>)
    requires More(p, x, y)
    ensures Missing(p, y) ==> Missing(p, x)
  {}

  lemma NothingMissing(p: Plan, results: map<StepId, Value>)
    ensures results.Keys == Ids(p) ==> !Missing(p, results)
  {}

  lemma TasksInPlan(p: Plan, row: State, log: seq<State>, starts: seq<StepId>, made: map<StepId, Value>, active: set<StepId>, waiting: set<StepId>,
                    polled: set<StepId>)
    requires Kept(p, row, log, starts, made) && Fits(p, row, active, waiting, polled)
    ensures forall id :: id in active ==> exists k :: 0 <= k < |p.steps| && p.steps[k].id == id
  {
    assert StateOk(p, log[|log| - 1]);
  }

  lemma LaunchKeeps(p: Plan, s: State, i: nat)
    requires i < |p.steps|
    ensures Launched(p, s, i).results == s.results && Launched(p, s, i).forgotten == s.forgotten && Launched(p, s, i).rejected == s.rejected
  {
    hide InOrder;
  }

  lemma ApartMore(tasks: Tasks, results: map<StepId, Value>, made: map<StepId, Value>, id: StepId)
    requires Apart(tasks, results, made) && id !in results
    ensures Apart(tasks[id := None], results, made)
  {}

  lemma RowGenuine(p: Plan, row: State, log: seq<State>, starts: seq<StepId>, made: map<StepId, Value>)
    requires Kept(p, row, log, starts, made)
    ensures Genuine(row.results, made)
  {}

  lemma TasksUnresolved(p: Plan, s: State, tasks: Tasks, waiting: set<StepId>, polled: set<StepId>)
    requires Fits(p, s, tasks.Keys, waiting, polled) && !s.rejected && AnyBroken(tasks)
    ensures s.Unresolved() != {}
  {
    var id :| id in tasks;
    assert id in tasks.Keys;
  }

  lemma StepIds(p: Plan, i: nat)
    requires i < |p.steps|
    ensures p.steps[i].id in Ids(p)
  {}

  lemma FitsPolled(p: Plan, s: State, active: set<StepId>, waiting: set<StepId>, polled: set<StepId>, id: StepId)
    requires Fits(p, s, active, waiting, polled) && id in s.results
    ensures Fits(p, s, active, waiting, polled + {id})
  {}

  lemma NotAttempted(s: State, active: set<StepId>, id: StepId)
    requires active == s.Unresolved() && id !in active && id !in s.results
    ensures id !in s.attempts
  {
    assert id in s.attempts && id !in s.results <==> id in s.Unresolved();
  }

  lemma RowCounted(p: Plan, row: State, log: seq<State>, starts: seq<StepId>, made: map<StepId, Value>)
    requires Kept(p, row, log, starts, made)
    ensures Counted(starts, row)
  {}

  lemma Admission(p: Plan, row: State, log: seq<State>, starts: seq<StepId>, made: map<StepId, Value>, active: set<StepId>, waiting: set<StepId>, polled: set<StepId>, i: nat)
    requires Kept(p, row, log, starts, made) && Fits(p, row, active, waiting, polled) && !row.rejected && i < |p.steps|
    requires p.steps[i].id !in row.results && p.steps[i].id !in active && Ready(p, row.results, p.steps[i].id) && |active| < p.width
    ensures var t := Launched(p, row, i);
      && StateOk(p, t) && Moves(row, t) && Fits(p, t, active + {p.steps[i].id}, waiting, polled)
      && Counted(starts + [p.steps[i].id], t)
  {
    hide StateOk, Linked, Counted, Moves, Fits, Ready, Launched;
    RowOk(p, row, log, starts, made);
    FitsWaiting(p, row, active, waiting, polled);
    NotAttempted(row, active, p.steps[i].id);
    LaunchMoves(p, row, i);
    FitsLaunch(p, row, active, waiting, polled, i);
    LaunchCounts(p, row, i);
    RowCounted(p, row, log, starts, made);
    StartCounted(starts, row, Launched(p, row, i), p.steps[i].id);
  }

  lemma StillKept(p: Plan, row: State, log: seq<State>, starts: seq<StepId>, made: map<StepId, Value>, more: seq<StepId>)
    requires Kept(p, row, log, starts, made) && Counted(more, row)
    ensures Kept(p, row, log, more, made)
  {}

  lemma LaunchCounts(p: Plan, s: State, i: nat)
    requires i < |p.steps| && p.steps[i].id !in s.attempts
    ensures s.Attempt(p.steps[i].id) < Launched(p, s, i).Attempt(p.steps[i].id)
    ensures forall a: StepId :: s.Attempt(a) <= Launched(p, s, i).Attempt(a)
  {
    hide InOrder;
  }

  /** The answer to an input gives no other step a result. */
  lemma StillMissing(p: Plan, x: map<StepId, Value>, y: map<StepId, Value>, i: nat, wasAsked: set<StepId>, asked: set<StepId>)
    requires WellFormed(p) && i < |p.steps| && p.steps[i].Input? && Answered(x, y, wasAsked, asked, p.steps[i].id)
    ensures More(p, x, y) && (Missing(p, x) ==> Missing(p, y))
  {
    assert y != x ==> y.Keys == x.Keys + {p.steps[i].id};
    if Missing(p, x) {
      var k :| 0 <= k < |p.steps| && p.steps[k].Work? && p.steps[k].id !in x;
      assert k != i && p.steps[k].id !in y;
    }
  }

  /** Asked inputs that have answers hold nothing up; fewer asked inputs hold up less. */
  lemma StuckAsked(p: Plan, results: map<StepId, Value>, asked: set<StepId>, waiting: set<StepId>)
    requires Stuck(p, results, asked) && asked <= waiting
    ensures Stuck(p, results, waiting) && (asked <= results.Keys ==> Stuck(p, results, {}))
  {
    hide Ready;
  }

  /** A step a pass has nothing to do for. */
  ghost predicate Settled(p: Plan, results: map<StepId, Value>, active: set<StepId>, waiting: set<StepId>, i: nat)
    requires i < |p.steps|
  {
    var id := p.steps[i].id;
    id in results || id in active || !Ready(p, results, id) || (p.steps[i].Input? && id in waiting) || |active| >= p.width
  }

  ghost predicate SettledUpto(p: Plan, results: map<StepId, Value>, active: set<StepId>, waiting: set<StepId>, n: nat)
    requires n <= |p.steps|
  {
    forall i :: 0 <= i < n ==> Settled(p, results, active, waiting, i)
  }

  lemma NoneSettled(p: Plan, results: map<StepId, Value>, active: set<StepId>, waiting: set<StepId>)
    ensures SettledUpto(p, results, active, waiting, 0)
  {}

  lemma SettlesAsIs(p: Plan, results: map<StepId, Value>, active: set<StepId>, waiting: set<StepId>, i: nat)
    requires i < |p.steps| && Settled(p, results, active, waiting, i)
    ensures SettledUpto(p, results, active, waiting, i) ==> SettledUpto(p, results, active, waiting, i + 1)
  {
    hide Settled;
  }

  lemma LaunchSettles(p: Plan, results: map<StepId, Value>, active: set<StepId>, waiting: set<StepId>, i: nat)
    requires i < |p.steps|
    ensures SettledUpto(p, results, active, waiting, i) ==> SettledUpto(p, results, active + {p.steps[i].id}, waiting, i + 1)
  {
    hide Ready;
    SubsetSize(active, active + {p.steps[i].id});
    if SettledUpto(p, results, active, waiting, i) {
      forall k | 0 <= k < i + 1 ensures Settled(p, results, active + {p.steps[i].id}, waiting, k) {
        if k < i { assert Settled(p, results, active, waiting, k); }
      }
    }
  }

  lemma AnsweredSettles(p: Plan, x: map<StepId, Value>, y: map<StepId, Value>, active: set<StepId>, wasWaiting: set<StepId>, waiting: set<StepId>, i: nat)
    requires i < |p.steps| && p.steps[i].Input? && Answered(x, y, wasWaiting, waiting, p.steps[i].id)
    ensures |y| >= |x|
    ensures |y| == |x| ==> y == x
    ensures |y| == |x| && SettledUpto(p, x, active, wasWaiting, i) ==> SettledUpto(p, y, active, waiting, i + 1)
  {
    hide Ready;
    if y != x {
      assert y.Keys == x.Keys + {p.steps[i].id};
    } else if SettledUpto(p, x, active, wasWaiting, i) {
      forall k | 0 <= k < i + 1 ensures Settled(p, y, active, waiting, k) {
        if k < i { assert Settled(p, x, active, wasWaiting, k); }
      }
    }
  }

  lemma AllSettled(p: Plan, results: map<StepId, Value>, waiting: set<StepId>, n: nat)
    requires n == |p.steps| && WellFormed(p)
    ensures SettledUpto(p, results, {}, waiting, n) ==> Stuck(p, results, waiting)
  {
    hide Ready;
    if SettledUpto(p, results, {}, waiting, n) {
      forall i | 0 <= i < |p.steps| && p.steps[i].id !in results && Ready(p, results, p.steps[i].id)
        ensures p.steps[i].Input? && p.steps[i].id in waiting
      {
        assert Settled(p, results, {}, waiting, i);
      }
    }
  }

  /** A task that has ended, by its place in the plan. */
  lemma TaskFacts(p: Plan, row: State, log: seq<State>, starts: seq<StepId>, made: map<StepId, Value>, active: set<StepId>, waiting: set<StepId>, polled: set<StepId>, id: StepId)
    requires Kept(p, row, log, starts, made) && Fits(p, row, active, waiting, polled) && !row.rejected && id in active
    ensures id in Ids(p) && id !in row.results && Ready(p, row.results, id)
  {
    hide Ids, Ready;
    assert StateOk(p, log[|log| - 1]);
    assert id in row.Unresolved();
  }

  lemma {:induction false} IdsUpto(p: Plan, n: nat)
    requires WellFormed(p) && n <= |p.steps|
    ensures |set i | 0 <= i < n :: p.steps[i].id| == n
  {
    if n > 0 {
      IdsUpto(p, n - 1);
      var x, y := set i | 0 <= i < n - 1 :: p.steps[i].id, set i | 0 <= i < n :: p.steps[i].id;
      assert y == x + {p.steps[n - 1].id} && p.steps[n - 1].id !in x;
    }
  }

  lemma SameSize<T>(x: set<T>, y: set<T>)
    requires x <= y && |x| >= |y|
    ensures x == y
  {
    assert |y| == |x| + |y - x|;
  }

  lemma RowSize(p: Plan, row: State, log: seq<State>, starts: seq<StepId>, made: map<StepId, Value>)
    requires WellFormed(p) && Kept(p, row, log, starts, made) && !row.rejected
    ensures row.results.Keys <= Ids(p) && |row.results| <= |p.steps|
    ensures |row.results| == |p.steps| ==> row.results.Keys == Ids(p)
  {
    assert StateOk(p, log[|log| - 1]);
    assert forall id :: id in row.results ==> Ready(p, row.results, id);
    IdsUpto(p, |p.steps|);
    SubsetSize(row.results.Keys, Ids(p));
    assert |row.results| == |row.results.Keys|;
    if |row.results| == |p.steps| { SameSize(row.results.Keys, Ids(p)); }
  }

  /** The unfinished step of least rank could always go on. */
  lemma {:induction false} LeastRank(p: Plan, rank: map<StepId, nat>, results: map<StepId, Value>, i: nat) returns (k: nat)
    requires WellFormed(p) && Ranked(p, rank) && i < |p.steps| && p.steps[i].id !in results
    ensures k < |p.steps| && p.steps[k].id !in results && Ready(p, results, p.steps[k].id)
    decreases if p.steps[i].id in rank then rank[p.steps[i].id] else 0
  {
    if Ready(p, results, p.steps[i].id) { return i; }
    var m := Unmet(p, rank, results, i);
    k := LeastRank(p, rank, results, m);
  }

  /** A step that is not ready has an unfinished dependency, of smaller rank. */
  lemma Unmet(p: Plan, rank: map<StepId, nat>, results: map<StepId, Value>, i: nat) returns (m: nat)
    requires WellFormed(p) && Ranked(p, rank) && i < |p.steps| && !Ready(p, results, p.steps[i].id)
    ensures m < |p.steps| && p.steps[m].id !in results && p.steps[i].id in p.needs && p.steps[m].id in p.needs[p.steps[i].id]
    ensures p.steps[i].id in rank && p.steps[m].id in rank && rank[p.steps[m].id] < rank[p.steps[i].id]
  {
    var id := p.steps[i].id;
    assert id in Ids(p);
    var d :| d in p.needs[id] && d !in results;
    assert d in Ids(p);
    m :| 0 <= m < |p.steps| && p.steps[m].id == d;
  }

  /** With accepted dependencies, work that is not finished never leaves the scheduler with nothing to do. */
  lemma NoDeadEnd(p: Plan, rank: map<StepId, nat>, results: map<StepId, Value>)
    requires WellFormed(p) && Ranked(p, rank) && |results| < |p.steps|
    ensures !Stuck(p, results, {})
  {
    hide Ready;
    IdsUpto(p, |p.steps|);
    assert |results| == |results.Keys|;
    if Ids(p) <= results.Keys { SubsetSize(Ids(p), results.Keys); }
    var i :| 0 <= i < |p.steps| && p.steps[i].id !in results;
    var k := LeastRank(p, rank, results, i);
  }

  lemma WaitingRow(p: Plan, row: State, log: seq<State>, starts: seq<StepId>, made: map<StepId, Value>, waiting: set<StepId>, polled: set<StepId>)
    requires Kept(p, row, log, starts, made) && Fits(p, row, {}, waiting, polled) && !row.rejected && Stuck(p, row.results, waiting)
    ensures var t := row.(status := AwaitingInput, inflight := None, inflightSteps := []);
      StateOk(p, t) && Moves(row, t) && Fits(p, t, {}, waiting, polled) && AllWaiting(p, t)
  {
    hide Ready, Ids, Closed;
    assert StateOk(p, log[|log| - 1]);
    NothingInOrder(p.steps);
    var t := row.(status := AwaitingInput, inflight := None, inflightSteps := []);
    assert t.Unresolved() == row.Unresolved() == {};
    assert forall id :: id in waiting ==> id in Members(row.waiting);
  }

  lemma {:induction false} NothingInOrder(steps: seq<Step>)
    ensures InOrder(steps, {}) == []
  {
    if steps != [] { NothingInOrder(steps[1..]); }
  }

  lemma NothingOpen(p: Plan, s: State)
    requires Attempted(p, s.attempts) && s.results.Keys == Ids(p)
    ensures s.Unresolved() == {}
  {
    hide Ids;
  }

  lemma CompleteRow(p: Plan, row: State, log: seq<State>, starts: seq<StepId>, made: map<StepId, Value>, active: set<StepId>, waiting: set<StepId>, polled: set<StepId>)
    requires WellFormed(p) && Kept(p, row, log, starts, made) && Fits(p, row, active, waiting, polled) && !row.rejected && |row.results| >= |p.steps|
    ensures var t := row.(status := Completed, inflight := None, inflightSteps := []);
      StateOk(p, t) && Moves(row, t) && Fits(p, t, active, waiting, polled) && active == {} && t.results.Keys == Ids(p)
  {
    hide Ready, Closed, Ids, InOrder, Attempted, Members;
    RowOk(p, row, log, starts, made);
    RowSize(p, row, log, starts, made);
    NothingInOrder(p.steps);
    NothingOpen(p, row);
  }

  // ----- Runs -----

  /** From this row a run can start a step: nothing is unresolved, and a step other than an input has no result. */
  ghost predicate Startable(p: Plan, s: State) { s.status != SourcesInvalid && s.Unresolved() == {} && Missing(p, s.results) }

  /** One run of the executor, from whatever the journal holds. */
  method Execute(p: Plan, j: Journal, world: World, ghost rank: map<StepId, nat>) returns (out: Outcome)
    requires WellFormed(p) && Ranked(p, rank) && Kept(p, j.row, j.log, j.starts, j.made)
    modifies j
    ensures Kept(p, j.row, j.log, j.starts, j.made) && old(j.log) <= j.log && old(j.starts) <= j.starts
    ensures old(j.row).rejected ==> j.row.rejected && j.starts == old(j.starts) && (out.Raised? || out.Interrupted? || out.Crashed?)
    ensures out.Returned? ==> j.row.status == Completed && !j.row.rejected && out.results == j.row.results && j.row.results.Keys == Ids(p) && j.vouched == Some(out.results)
    ensures out.Waiting? ==> j.row.status == AwaitingInput && !j.row.rejected && out.results == j.row.results && AllWaiting(p, j.row) && j.vouched == Some(out.results)
    ensures !out.Continue? && (out.Raised? ==> Tells(out.code, j.row))
    ensures out.Interrupted? && j.row.rejected ==> j.row.attempts != map[]
    ensures j.row.forgotten == old(j.row).forgotten && (j.starts != old(j.starts) ==> Startable(p, old(j.row)))
    ensures world.Helpful? ==> (j.starts != old(j.starts) <==> Startable(p, old(j.row)))
    ensures world.Distrusting? ==> out == Raised(Invalid) && j.row.attempts == old(j.row).attempts
    ensures world.Helpful? && old(j.row).status != SourcesInvalid && old(j.row).Unresolved() != {} ==> out == Raised(Unknown)
    ensures world.Helpful? && old(j.row).status != SourcesInvalid && old(j.row).Unresolved() == {} ==>
      !out.Waiting? && (out.Raised? ==> j.row.Unresolved() != {}) && (!Missing(p, old(j.row).results) ==> out.Returned?)
  {
    hide StateOk, Linked, Counted, Moves, InOrder, Ready, Ids, AllWaiting, WellFormed, Ranked, Missing, Kept, Members, Closed;
    RowRejects(p, j.row, j.log, j.starts, j.made);
    if j.row.status == SourcesInvalid { return Raised(Invalid); }
    var e := new Scheduler(p, j, world);
    out := e.Verify();
    if !out.Continue? { return; }
    if j.row.Unresolved() != {} {
      e.SetStatus(OutcomeUnknown);
      return Raised(Unknown);
    }
    Unrejected(p, j.row, j.log, j.starts, j.made);
    RowWaiting(p, j.row, j.log, j.starts, j.made);
    out := e.Work(rank);
  }

  lemma RowRejects(p: Plan, row: State, log: seq<State>, starts: seq<StepId>, made: map<StepId, Value>)
    requires Kept(p, row, log, starts, made)
    ensures row.status == SourcesInvalid ==> row.rejected
    ensures row.rejected && row.status != SourcesInvalid ==> row.attempts != map[]
  {
    assert StateOk(p, log[|log| - 1]);
  }

  /** A rejected row never gets past the check for unresolved attempts. */
  lemma Unrejected(p: Plan, row: State, log: seq<State>, starts: seq<StepId>, made: map<StepId, Value>)
    requires Kept(p, row, log, starts, made) && row.status != SourcesInvalid && row.Unresolved() == {}
    ensures !row.rejected
  {
    assert StateOk(p, log[|log| - 1]);
    assert row.results == map[] ==> row.Unresolved() == row.attempts.Keys;
  }

  lemma RowWaiting(p: Plan, row: State, log: seq<State>, starts: seq<StepId>, made: map<StepId, Value>)
    requires Kept(p, row, log, starts, made)
    ensures Members(row.waiting) <= Ids(p)
  {
    assert StateOk(p, log[|log| - 1]);
  }

  method SetStatus(p: Plan, j: Journal, status: Status)
    requires Kept(p, j.row, j.log, j.starts, j.made) && status != SourcesInvalid
    requires status == Completed ==> !j.row.rejected && j.row.results.Keys == Ids(p)
    requires j.row.rejected ==> j.row.attempts != map[]
    modifies j
    ensures Kept(p, j.row, j.log, j.starts, j.made) && old(j.log) <= j.log && j.starts == old(j.starts)
    ensures j.row == old(j.row).(status := status) && j.vouched == old(j.vouched)
  {
    hide Linked, Counted, Accounted, Closed, Attempted, Prepared;
    assert StateOk(p, j.log[|j.log| - 1]);
    var t := j.row.(status := status);
    assert t.Unresolved() == j.row.Unresolved();
    KeptMore(p, j.row, j.log, j.starts, j.made, t);
    j.Save(t);
  }

  /** A rejection that only the status remembers: no unresolved attempt stops a later run. */
  predicate Forgettable(s: State) { s.rejected && s.attempts == map[] }

  /** An interruption recorded before the executor's first step. */
  function Overwritten(s: State): State
  {
    if Forgettable(s) then s.(status := Cancelled, rejected := false, forgotten := s.forgotten + 1) else s.(status := Cancelled)
  }

  lemma OverwriteMoves(p: Plan, s: State)
    requires StateOk(p, s)
    ensures StateOk(p, Overwritten(s)) && Moves(s, Overwritten(s))
  {
    assert Overwritten(s).Unresolved() == s.Unresolved();
  }

  /**
   * `run`: an interruption is recorded over whatever status the row has. `early` says that it arrives before the executor
   * has taken its first step.
   */
  method Run(p: Plan, j: Journal, early: bool, world: World, ghost rank: map<StepId, nat>) returns (out: Outcome)
    requires WellFormed(p) && Ranked(p, rank) && Kept(p, j.row, j.log, j.starts, j.made)
    modifies j
    ensures Kept(p, j.row, j.log, j.starts, j.made) && old(j.log) <= j.log && old(j.starts) <= j.starts
    ensures early ==> j.row == Overwritten(old(j.row)) && j.starts == old(j.starts) && out == Interrupted(false)
    ensures !early ==> j.row.forgotten == old(j.row).forgotten && (j.starts != old(j.starts) ==> Startable(p, old(j.row)))
    ensures !early && world.Distrusting? ==> out == Raised(Invalid) && j.row.attempts == old(j.row).attempts
    ensures !early && world.Helpful? ==> (j.starts != old(j.starts) <==> Startable(p, old(j.row)))
    ensures !early && world.Helpful? && old(j.row).status != SourcesInvalid && old(j.row).Unresolved() == {} ==>
      !out.Waiting? && (out.Raised? ==> j.row.Unresolved() != {}) && (!Missing(p, old(j.row).results) ==> out.Returned?)
    ensures old(j.row).rejected && !early ==> j.row.rejected && j.starts == old(j.starts) && (out.Raised? || out.Interrupted? || out.Crashed?)
    ensures out.Returned? ==> j.row.status == Completed && !j.row.rejected && out.results == j.row.results && j.row.results.Keys == Ids(p) && j.vouched == Some(out.results)
    ensures out.Waiting? ==> j.row.status == AwaitingInput && !j.row.rejected && out.results == j.row.results && AllWaiting(p, j.row) && j.vouched == Some(out.results)
    ensures out.Raised? ==> Tells(out.code, j.row)
    ensures out.Interrupted? ==> j.row.status == if out.deadline then Deadline else Cancelled
  {
    hide StateOk, Linked, Counted, Moves, Ids, AllWaiting, WellFormed, Ranked, Kept, Missing;
    if early {
      RowOk(p, j.row, j.log, j.starts, j.made);
      OverwriteMoves(p, j.row);
      RowGenuine(p, j.row, j.log, j.starts, j.made);
      KeptMore(p, j.row, j.log, j.starts, j.made, Overwritten(j.row));
      j.Save(Overwritten(j.row));
      return Interrupted(false);
    }
    out := Execute(p, j, world, rank);
    if out.Interrupted? { SetStatus(p, j, if out.deadline then Deadline else Cancelled); }
  }

  /**
   * A rejection is final but for this: interrupted early, and run again, a rejected run can start a step exactly if none
   * has been started before and there is one to start; and it does when the environment helps.
   */
  method EarlyInterruption(p: Plan, j: Journal, world: World, ghost rank: map<StepId, nat>) returns (out: Outcome)
    requires WellFormed(p) && Ranked(p, rank) && Kept(p, j.row, j.log, j.starts, j.made) && j.row.rejected
    modifies j
    ensures Kept(p, j.row, j.log, j.starts, j.made) && old(j.log) <= j.log && old(j.starts) <= j.starts
    ensures j.starts != old(j.starts) ==> old(j.row).attempts == map[] && exists i :: 0 <= i < |p.steps| && p.steps[i].Work?
    ensures world.Helpful? ==>
      (j.starts != old(j.starts) <==> old(j.row).attempts == map[] && exists i :: 0 <= i < |p.steps| && p.steps[i].Work?)
  {
    hide Kept, WellFormed, Ranked, Startable;
    StartableAgain(p, j.row, j.log, j.starts, j.made);
    out := Run(p, j, true, world, rank);
    out := Run(p, j, false, world, rank);
  }

  lemma StartableAgain(p: Plan, row: State, log: seq<State>, starts: seq<StepId>, made: map<StepId, Value>)
    requires Kept(p, row, log, starts, made) && row.rejected
    ensures Startable(p, Overwritten(row)) <==> row.attempts == map[] && exists i :: 0 <= i < |p.steps| && p.steps[i].Work?
  {
    hide Linked, Counted;
    assert StateOk(p, log[|log| - 1]);
    assert Overwritten(row).Unresolved() == row.attempts.Keys;
  }

  const PAIR := Plan([Work(1, false, false), Work(2, false, false)], map[1 := {}, 2 := {1}], 2)

  /** Such a run: its evidence is rejected before its first step, it is cancelled early, and then it starts a step. */
  method RejectionForgotten() returns (j: Journal)
    ensures j.starts != [] && exists k :: 0 <= k < |j.log| && j.log[k].rejected
  {
    hide StateOk, Linked, Counted, WellFormed, Ranked, Startable;
    j := new Journal();
    PairPlan();
    NewJournal(PAIR);
    var out := Run(PAIR, j, false, Distrusting, PAIR_RANK);
    ghost var k := |j.log| - 1;
    assert j.row.rejected && j.log[k] == j.row;
    out := EarlyInterruption(PAIR, j, Helpful, PAIR_RANK);
  }

  const PAIR_RANK: map<StepId, nat> := map[1 := 0, 2 := 1]

  lemma PairPlan()
    ensures WellFormed(PAIR) && Ranked(PAIR, PAIR_RANK)
    ensures exists i :: 0 <= i < |PAIR.steps| && PAIR.steps[i].Work?
  {
    assert PAIR.steps[0].id == 1 && PAIR.steps[1].id == 2 && PAIR.steps[0].Work?;
    assert Ids(PAIR) == {1, 2};
  }

  /** `read_result`: only the results of all steps count as complete here. */
  method ReadResult(p: Plan, j: Journal, world: World) returns (out: Outcome)
    requires WellFormed(p) && Kept(p, j.row, j.log, j.starts, j.made)
    modifies j
    ensures Kept(p, j.row, j.log, j.starts, j.made) && old(j.log) <= j.log && j.starts == old(j.starts)
    ensures out.Returned? ==> Readable(p, old(j.row)) && out.results == old(j.row).results
    ensures world.Helpful? ==> (out.Returned? <==> Readable(p, old(j.row)))
    ensures !Readable(p, old(j.row)) ==> out == Raised(NotCompleted) && j.row == old(j.row)
    ensures old(j.row).rejected ==> j.row == old(j.row) && out == Raised(NotCompleted)
    ensures j.row.forgotten == old(j.row).forgotten
    ensures out.Returned? ==> j.row.status == Completed && !j.row.rejected && out.results == j.row.results && j.row.results.Keys == Ids(p) && j.vouched == Some(out.results)
  {
    hide StateOk, Linked, Counted, Moves, Kept;
    var s := j.row;
    var partial := exists i :: 0 <= i < |p.steps| && p.steps[i].id !in s.results;
    RejectedPartial(p, j.row, j.log, j.starts, j.made);
    if (s.status != Completed && s.status != VerificationUnavailable) || s.inflight.Some? || partial { return Raised(NotCompleted); }
    var e := new Scheduler(p, j, world);
    out := e.Verify();
    if out.Interrupted? && out.deadline { return Raised(Unavailable); }
    if !out.Continue? { return; }
    WholeRow(p, j.row, j.log, j.starts, j.made);
    SetStatus(p, j, Completed);
    out := Returned(s.results);
  }

  /** The row shows the results of all steps, and none in flight. */
  ghost predicate Readable(p: Plan, s: State)
  {
    && (s.status == Completed || s.status == VerificationUnavailable) && s.inflight.None?
    && forall i :: 0 <= i < |p.steps| ==> p.steps[i].id in s.results
  }

  lemma RejectedPartial(p: Plan, row: State, log: seq<State>, starts: seq<StepId>, made: map<StepId, Value>)
    requires WellFormed(p) && Kept(p, row, log, starts, made)
    ensures row.rejected ==> p.steps[0].id !in row.results
  {
    assert StateOk(p, log[|log| - 1]);
  }

  lemma WholeRow(p: Plan, row: State, log: seq<State>, starts: seq<StepId>, made: map<StepId, Value>)
    requires WellFormed(p) && Kept(p, row, log, starts, made) && !row.rejected
    requires forall i :: 0 <= i < |p.steps| ==> p.steps[i].id in row.results
    ensures row.results.Keys == Ids(p)
  {
    RowSize(p, row, log, starts, made);
  }

  datatype Call = Read(world: World) | Begin(early: bool, world: World)

  predicate NoneEarly(calls: seq<Call>) { forall i :: 0 <= i < |calls| && calls[i].Begin? ==> !calls[i].early }

  /**
   * Any number of runs and reads of one journal, by processes that may have crashed at any point. A rejected run starts
   * nothing, unless an early interruption has made the journal forget the rejection.
   */
  method Sessions(p: Plan, j: Journal, calls: seq<Call>, ghost rank: map<StepId, nat>)
    requires WellFormed(p) && Ranked(p, rank) && Kept(p, j.row, j.log, j.starts, j.made)
    modifies j
    ensures Kept(p, j.row, j.log, j.starts, j.made) && old(j.log) <= j.log && old(j.starts) <= j.starts
    ensures old(j.row).rejected && j.row.forgotten == old(j.row).forgotten ==> j.row.rejected && j.starts == old(j.starts)
    ensures NoneEarly(calls) || (old(j.row).rejected && old(j.row).attempts != map[]) ==> j.row.forgotten == old(j.row).forgotten
  {
    hide StateOk, Linked, Counted, WellFormed, Ranked, Startable;
    for i := 0 to |calls|
      invariant Kept(p, j.row, j.log, j.starts, j.made) && old(j.log) <= j.log && old(j.starts) <= j.starts
      invariant old(j.row).forgotten <= j.row.forgotten
      invariant old(j.row).rejected && j.row.forgotten == old(j.row).forgotten ==>
        j.row.rejected && j.starts == old(j.starts) && j.row.attempts == old(j.row).attempts
      invariant NoneEarly(calls[..i]) || (old(j.row).rejected && old(j.row).attempts != map[]) ==> j.row.forgotten == old(j.row).forgotten
    {
      assert NoneEarly(calls[..i + 1]) ==> NoneEarly(calls[..i]) && (calls[i].Begin? ==> !calls[i].early) by {
        if NoneEarly(calls[..i + 1]) {
          assert calls[..i + 1][i] == calls[i];
          forall k | 0 <= k < i && calls[k].Begin? ensures !calls[k].early { assert calls[..i + 1][k] == calls[k]; }
        }
      }
      ghost var was, log := j.row, j.log;
      match calls[i] {
        case Read(world) => var r := ReadResult(p, j, world);
        case Begin(early, world) => var r := Run(p, j, early, world, rank);
      }
      if was.rejected && j.row.forgotten == was.forgotten { SameAttempts(p, j.row, j.log, j.starts, j.made, was, log); }
    }
  }

  lemma SameAttempts(p: Plan, row: State, log: seq<State>, starts: seq<StepId>, made: map<StepId, Value>, was: State, before: seq<State>)
    requires Kept(p, row, log, starts, made) && before != [] && before <= log && was == before[|before| - 1]
    requires was.rejected && row.forgotten == was.forgotten
    ensures row.attempts == was.attempts
  {
    hide StateOk;
    if |before| < |log| { assert Moves(log[|before| - 1], log[|log| - 1]); }
  }

  lemma NewJournal(p: Plan)
    requires WellFormed(p)
    ensures Kept(p, FRESH, [FRESH], [], map[])
  {
    NothingInOrder(p.steps);
    assert FRESH.Unresolved() == {};
  }

  /** Over all runs together no step is started twice, and only steps with their dependencies complete have results. */
  lemma StartsOnce(p: Plan, row: State, log: seq<State>, starts: seq<StepId>, made: map<StepId, Value>, id: StepId, x: nat)
    requires Kept(p, row, log, starts, made) && x < |log|
    ensures Count(starts, id) <= 1
    ensures id in log[x].results ==> id in p.needs && forall d :: d in p.needs[id] ==> d in log[x].results
    ensures !log[x].rejected && id in log[x].attempts ==> id in p.needs && p.needs[id] <= log[x].results.Keys
    ensures !log[x].rejected ==> |log[x].Unresolved()| <= p.width && log[x].inflightSteps == InOrder(p.steps, log[x].Unresolved())
  {
    hide Linked;
    assert StateOk(p, log[|log| - 1]) && StateOk(p, log[x]);
    assert Count(starts, id) <= row.Attempt(id);
    assert id in log[x].results ==> Ready(p, log[x].results, id);
    assert !log[x].rejected && id in log[x].attempts ==> Ready(p, log[x].results, id);
  }

  /** A way down through dependencies that are not finished. */
  ghost predicate Chain(p: Plan, results: map<StepId, Value>, path: seq<StepId>)
  {
    && (forall i :: 0 <= i < |path| ==> path[i] !in results)
    && forall i :: 0 <= i < |path| - 1 ==> path[i] in p.needs && path[i + 1] in p.needs[path[i]]
  }

  /** Every result ever saved, up to a rejection, is what its step last returned, or its input last gave. */
  lemma ResultsGenuine(p: Plan, row: State, log: seq<State>, starts: seq<StepId>, made: map<StepId, Value>, x: nat, id: StepId)
    requires Kept(p, row, log, starts, made) && x < |log| && id in log[x].results
    requires !row.rejected && log[x].forgotten == row.forgotten
    ensures id in made && made[id] == log[x].results[id] && id in row.results
  {
    hide StateOk, Counted;
    if x < |log| - 1 { assert Moves(log[x], log[|log| - 1]); }
  }

  /** In a waiting run every unfinished step is a pending input or depends on one through unfinished steps. */
  lemma {:induction false} WaitsForInput(p: Plan, s: State, rank: map<StepId, nat>, i: nat) returns (path: seq<StepId>)
    requires WellFormed(p) && Ranked(p, rank) && AllWaiting(p, s) && i < |p.steps| && p.steps[i].id !in s.results
    ensures path != [] && path[0] == p.steps[i].id && Chain(p, s.results, path)
    ensures path[|path| - 1] in s.waiting && exists k :: 0 <= k < |p.steps| && p.steps[k] == Input(path[|path| - 1])
    decreases if p.steps[i].id in rank then rank[p.steps[i].id] else 0
  {
    hide Ready, WellFormed;
    var id := p.steps[i].id;
    RankOf(p, rank, i);
    if Ready(p, s.results, id) {
      assert p.steps[i] == Input(id);
      return [id];
    }
    var m := Unmet(p, rank, s.results, i);
    var rest := WaitsForInput(p, s, rank, m);
    path := [id] + rest;
  }

  lemma RankOf(p: Plan, rank: map<StepId, nat>, i: nat)
    requires WellFormed(p) && Ranked(p, rank) && i < |p.steps|
    ensures p.steps[i].id in rank
  {
    assert p.steps[i].id in Ids(p);
  }
}
