/**
 * The journal of one workflow run. A save replaces the row atomically and
 * durably; whatever stops the process leaves the row as the last save left it.
 */
module WorkflowTypes {
  import opened Prelude

  type StepId = nat
  type Value = nat

  datatype Step = Work(id: StepId, idempotent: bool, retryable: bool) | Input(id: StepId)

  datatype Status =
    | Created | Running | Failed | Completed | AwaitingInput | OutcomeUnknown | RetryNotAllowed
    | SourcesInvalid | VerificationUnavailable | Cancelled | Deadline

  /**
   * `rejected` remembers that the verifier has rejected the evidence, and `forgotten` counts the rejections whose only
   * trace, the status, has been overwritten since; no step reads either.
   */
  datatype State = State(
    results: map<StepId, Value>, attempts: map<StepId, nat>, status: Status, inflight: Option<StepId>,
    inflightSteps: seq<StepId>, waiting: seq<StepId>, rejected: bool, forgotten: nat)
  {
    function Attempt(id: StepId): nat { if id in attempts then attempts[id] else 0 }
    function Unresolved(): set<StepId> { attempts.Keys - results.Keys }
  }

  const FRESH := State(map[], map[], Created, None, [], [], false, 0)

  datatype Code =
    | Invalid | Unavailable | Unknown | NotAllowed | Exhausted | StepFailed | CompletionFailed | BadPayload | NotCompleted
    | PollFailed | BadDependencies

  /** How an executor, or part of one, ends. A crash stops everything; an interruption is a cancellation or a deadline. */
  datatype Outcome =
    | Continue
    | Returned(results: map<StepId, Value>)
    | Waiting(results: map<StepId, Value>)
    | Raised(code: Code)
    | Interrupted(deadline: bool)
    | Crashed

  /** What a verifier call may do. */
  datatype Verdict = Approved | Rejected | Unreachable | Stopped(deadline: bool) | Lost

  /** What a step call may do: a value, an exception, a value that does not encode, or no return at all. */
  datatype Report = Value(value: Value) | Exception | Unencodable | Halted(deadline: bool) | Gone

  /** How the task of a step ends. */
  datatype End = Made(value: Value) | Broke | TooLarge | Withdrawn

  /** What polling an input may do. */
  datatype PollEnd = Pending | Given(value: Value) | NoStorage | PollBroke | PollStopped(deadline: bool) | PollLost

  class Journal {
    var row: State
    /** Every row ever saved, and every step body ever called. */
    ghost var log: seq<State>
    ghost var starts: seq<StepId>
    /** What the body of each step last returned, and each input last gave. */
    ghost var made: map<StepId, Value>
    /** What a step that was waited for reported last, and what an input answered last. */
    ghost var reported: Report
    ghost var answered: PollEnd
    /** The results the verifier approved last. */
    ghost var vouched: Option<map<StepId, Value>>

    constructor ()
      ensures row == FRESH && log == [FRESH] && starts == [] && made == map[]
    {
      row, log, starts, made, reported, answered, vouched := FRESH, [FRESH], [], map[], Gone, Pending, None;
    }

    /** The verifier approves these results. */
    ghost method Vouch(results: map<StepId, Value>)
      modifies this`vouched
      ensures vouched == Some(results)
    {
      vouched := Some(results);
    }

    method Save(s: State)
      modifies this`row, this`log
      ensures row == s && log == old(log) + [s]
    {
      row, log := s, log + [s];
    }

    // What happens outside: step bodies and inputs, which may do anything.

    /** Calls the body of a step, and waits for it. */
    method Call(id: StepId) returns (report: Report)
      modifies this`starts, this`made, this`reported
      ensures starts == old(starts) + [id] && reported == report
      ensures made == if report.Value? then old(made)[id := report.value] else old(made)
    {
      starts := starts + [id];
      report := *;
      if report.Value? { made := made[id := report.value]; }
      reported := report;
    }

    /** Calls the body of a step in a task of its own. */
    method Start(id: StepId)
      modifies this`starts
      ensures starts == old(starts) + [id]
    {
      starts := starts + [id];
    }

    /** How the task of a step ends. */
    method Finish(id: StepId) returns (end: End)
      modifies this`made
      ensures made == if end.Made? then old(made)[id := end.value] else old(made)
    {
      end := *;
      if end.Made? { made := made[id := end.value]; }
    }

    /** Polls an input; `helpful` says that it has a value. */
    method Ask(id: StepId, helpful: bool) returns (answer: PollEnd)
      modifies this`made, this`answered
      ensures made == if answer.Given? then old(made)[id := answer.value] else old(made)
      ensures answered == answer
      ensures helpful ==> answer.Given?
    {
      answer := *;
      if helpful && !answer.Given? {
        var value: Value := *;
        answer := Given(value);
      }
      if answer.Given? { made := made[id := answer.value]; }
      answered := answer;
    }
  }

  /** The results are what the steps returned, and the inputs gave, last. */
  ghost predicate Genuine(results: map<StepId, Value>, made: map<StepId, Value>)
  {
    forall id :: id in results ==> id in made && made[id] == results[id]
  }

  /** What the row shows after an executor has raised an error. */
  ghost predicate Explains(code: Code, s: State)
  {
    match code
    case Invalid => s.rejected
    case Unavailable => s.status == VerificationUnavailable
    case Unknown => s.status == OutcomeUnknown
    case NotAllowed => s.status == RetryNotAllowed
    case StepFailed => s.status == Failed
    case CompletionFailed => s.status == Failed
    case BadPayload => s.status == Failed
    case PollFailed => s.status == Failed
    case Exhausted => s.Unresolved() != {}
    case NotCompleted => false
    case BadDependencies => false
  }

  ghost function Count(starts: seq<StepId>, id: StepId): nat
  {
    if starts == [] then 0 else Count(starts[..|starts| - 1], id) + if starts[|starts| - 1] == id then 1 else 0
  }

  /** No step body has been called more often than the journal says. */
  ghost predicate Counted(starts: seq<StepId>, s: State)
  {
    forall id: StepId :: Count(starts, id) <= s.Attempt(id)
  }

  lemma OneStart(starts: seq<StepId>, id: StepId)
    ensures forall i: StepId :: Count(starts + [id], i) == Count(starts, i) + if i == id then 1 else 0
  {
    assert (starts + [id])[..|starts + [id]| - 1] == starts;
  }

  lemma StartCounted(starts: seq<StepId>, s: State, t: State, id: StepId)
    requires Counted(starts, s) && s.Attempt(id) < t.Attempt(id) && forall a: StepId :: s.Attempt(a) <= t.Attempt(a)
    ensures Counted(starts + [id], t)
  {
    OneStart(starts, id);
  }

  /** What saves may change: results are written once, attempts only grow, and a rejection is final unless forgotten. */
  ghost predicate Moves(x: State, y: State)
  {
    && x.forgotten <= y.forgotten
    && (x.rejected && y.forgotten == x.forgotten ==> y.rejected && y.attempts == x.attempts)
    && (y.rejected ==> y.results == map[])
    && (!y.rejected && y.forgotten == x.forgotten ==> forall id :: id in x.results ==> id in y.results && y.results[id] == x.results[id])
    && forall id: StepId :: x.Attempt(id) <= y.Attempt(id)
  }

  ghost predicate Linked(log: seq<State>)
  {
    forall i, j :: 0 <= i < j < |log| ==> Moves(log[i], log[j])
  }

  lemma MovesOn(x: State, y: State, z: State)
    requires Moves(x, y) && Moves(y, z)
    ensures Moves(x, z)
  {
    forall id: StepId ensures x.Attempt(id) <= z.Attempt(id) { assert x.Attempt(id) <= y.Attempt(id); }
  }

  lemma LinkedMore(log: seq<State>, s: State)
    requires Linked(log) && log != [] && Moves(log[|log| - 1], s)
    ensures Linked(log + [s])
  {
    forall i | 0 <= i < |log| ensures Moves(log[i], s) {
      if i < |log| - 1 { MovesOn(log[i], log[|log| - 1], s); }
    }
  }
}
