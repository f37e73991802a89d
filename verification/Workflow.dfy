/** The sequential executor of a workflow run, and the re-reading of its result. */
module Workflow {
  import opened Prelude
  import opened WorkflowTypes

  /** `admits` is what a verifier can approve at all, as far as that depends on the results. */
  datatype Config = Config(
    steps: seq<Step>, retries: nat, automatic: bool, verifyBefore: bool,
    completion: Option<map<StepId, Value> -> Option<bool>>, admits: map<StepId, Value> -> bool)

  /** What the verifier answers whenever it is asked in a run: first, before each step, and last. */
  type Verdicts = nat -> Verdict

  ghost predicate WellFormed(cfg: Config)
  {
    && 1 <= |cfg.steps| <= 32 && (forall i, j :: 0 <= i < j < |cfg.steps| ==> cfg.steps[i].id != cfg.steps[j].id)
    && forall i :: 0 <= i < |cfg.steps| ==> cfg.steps[i].Work? && (cfg.steps[i].retryable ==> cfg.steps[i].idempotent)
  }

  /** How often a step may be started, over all runs together. */
  function Allowed(cfg: Config, step: Step): nat { if step.Work? && step.retryable then 1 + cfg.retries else 1 }

  function IdsBefore(cfg: Config, k: nat): set<StepId>
    requires k <= |cfg.steps|
  {
    set i | 0 <= i < k :: cfg.steps[i].id
  }

  /** The results of the first `k` steps. */
  function Restrict(cfg: Config, results: map<StepId, Value>, k: nat): map<StepId, Value>
    requires k <= |cfg.steps|
  {
    map id | id in results && id in IdsBefore(cfg, k) :: results[id]
  }

  function Finished(cfg: Config, results: map<StepId, Value>): Option<bool>
  {
    if cfg.completion.None? then Some(false) else (cfg.completion.value)(results)
  }

  /** The results are those of the first steps, and the completion condition did not hold any earlier. */
  ghost predicate IsPrefix(cfg: Config, results: map<StepId, Value>)
  {
    && |results| <= |cfg.steps| && results.Keys == IdsBefore(cfg, |results|)
    && forall k :: 0 <= k < |results| ==> Finished(cfg, Restrict(cfg, results, k)) == Some(false)
  }

  ghost predicate Bounded(cfg: Config, attempts: map<StepId, nat>)
  {
    forall id :: id in attempts ==> exists i :: 0 <= i < |cfg.steps| && cfg.steps[i].id == id && attempts[id] <= Allowed(cfg, cfg.steps[i])
  }

  /** Only the step after the results can have been started without one, and it and nothing else is in flight. */
  ghost predicate Resolved(cfg: Config, s: State)
  {
    && (forall id :: id in s.attempts && id !in s.results ==>
          |s.results| < |cfg.steps| && id == cfg.steps[|s.results|].id && s.inflight == Some(id))
    && (s.inflight.Some? ==> s.inflight.value in s.attempts && s.inflight.value !in s.results)
  }

  /** What a completed run has to show: every step, or the first results that satisfy the completion condition. */
  ghost predicate IsComplete(cfg: Config, s: State)
  {
    && (|s.results| == |cfg.steps| || Finished(cfg, s.results) == Some(true)) && cfg.admits(s.results)
    && (s.forgotten == 0 ==> s.Unresolved() == {})
  }

  ghost predicate StateOk(cfg: Config, s: State)
  {
    && IsPrefix(cfg, s.results) && Bounded(cfg, s.attempts) && (s.rejected <==> s.status == SourcesInvalid)
    && (s.rejected ==> s.results == map[]) && (!s.rejected && s.forgotten == 0 ==> Resolved(cfg, s))
    && (s.status == Completed ==> IsComplete(cfg, s))
  }

  /** Every row ever saved is in order, and follows from the rows before it. */
  ghost predicate Kept(cfg: Config, row: State, log: seq<State>, starts: seq<StepId>, made: map<StepId, Value>)
  {
    && log != [] && log[|log| - 1] == row && (forall i :: 0 <= i < |log| ==> StateOk(cfg, log[i]))
    && Linked(log) && Counted(starts, row) && Genuine(row.results, made)
  }

  lemma KeptMore(cfg: Config, row: State, log: seq<State>, starts: seq<StepId>, made: map<StepId, Value>, s: State)
    requires Kept(cfg, row, log, starts, made) && StateOk(cfg, s) && Moves(row, s) && Genuine(s.results, made)
    ensures Kept(cfg, s, log + [s], starts, made)
  {
    hide StateOk;
    LinkedMore(log, s);
    forall id: StepId ensures Count(starts, id) <= s.Attempt(id) { assert Count(starts, id) <= row.Attempt(id) <= s.Attempt(id); }
  }

  /** A change of status alone. */
  lemma StatusMoves(cfg: Config, s: State, status: Status)
    requires StateOk(cfg, s) && !s.rejected && status != SourcesInvalid && (status == Completed ==> IsComplete(cfg, s))
    ensures StateOk(cfg, s.(status := status)) && Moves(s, s.(status := status))
  {}

  function RejectedRow(s: State): State { s.(status := SourcesInvalid, results := map[], rejected := true) }

  lemma RejectMoves(cfg: Config, s: State)
    requires StateOk(cfg, s) && !s.rejected
    ensures StateOk(cfg, RejectedRow(s)) && Moves(s, RejectedRow(s))
  {
    assert IdsBefore(cfg, 0) == {};
  }

  lemma IdsMore(cfg: Config, i: nat)
    requires WellFormed(cfg) && i < |cfg.steps|
    ensures IdsBefore(cfg, i + 1) == IdsBefore(cfg, i) + {cfg.steps[i].id}
    ensures forall k :: 0 <= k <= i ==> cfg.steps[i].id !in IdsBefore(cfg, k)
  {}

  lemma BoundedMore(cfg: Config, attempts: map<StepId, nat>, i: nat, attempt: nat)
    requires Bounded(cfg, attempts) && i < |cfg.steps| && attempt <= Allowed(cfg, cfg.steps[i])
    ensures Bounded(cfg, attempts[cfg.steps[i].id := attempt])
  {}

  lemma NextIsNew(cfg: Config, results: map<StepId, Value>, i: nat)
    requires WellFormed(cfg) && IsPrefix(cfg, results) && i == |results| < |cfg.steps|
    ensures cfg.steps[i].id !in results
  {
    hide IdsBefore, WellFormed;
    IdsMore(cfg, i);
  }

  function Started(cfg: Config, s: State, i: nat, attempt: nat): State
    requires i < |cfg.steps|
  {
    s.(status := Running, inflight := Some(cfg.steps[i].id), attempts := s.attempts[cfg.steps[i].id := attempt])
  }

  lemma StartMoves(cfg: Config, s: State, i: nat, attempt: nat)
    requires WellFormed(cfg) && StateOk(cfg, s) && !s.rejected && i == |s.results| < |cfg.steps|
    requires s.Attempt(cfg.steps[i].id) < attempt <= Allowed(cfg, cfg.steps[i])
    ensures StateOk(cfg, Started(cfg, s, i, attempt)) && Moves(s, Started(cfg, s, i, attempt))
  {
    hide Bounded, IsPrefix, WellFormed, Allowed, IsComplete;
    BoundedMore(cfg, s.attempts, i, attempt);
    NextIsNew(cfg, s.results, i);
  }

  lemma PrefixMore(cfg: Config, results: map<StepId, Value>, i: nat, value: Value)
    requires WellFormed(cfg) && IsPrefix(cfg, results) && i == |results| < |cfg.steps| && Finished(cfg, results) == Some(false)
    ensures IsPrefix(cfg, results[cfg.steps[i].id := value]) && |results[cfg.steps[i].id := value]| == i + 1
  {
    hide IdsBefore, WellFormed, Finished;
    var id, more := cfg.steps[i].id, results[cfg.steps[i].id := value];
    IdsMore(cfg, i);
    assert more.Keys == results.Keys + {id};
    forall k | 0 <= k < |more| ensures Finished(cfg, Restrict(cfg, more, k)) == Some(false) {
      if k == i { assert Restrict(cfg, more, k) == results; } else { assert Restrict(cfg, more, k) == Restrict(cfg, results, k); }
    }
  }

  /** The row with the result of a step. */
  function Resulted(s: State, id: StepId, value: Value): State
  {
    s.(status := Running, inflight := None, results := s.results[id := value])
  }

  lemma ResultMoves(cfg: Config, s: State, i: nat, value: Value)
    requires WellFormed(cfg) && StateOk(cfg, s) && !s.rejected && i == |s.results| < |cfg.steps|
    requires Finished(cfg, s.results) == Some(false)
    ensures var t := Resulted(s, cfg.steps[i].id, value); StateOk(cfg, t) && Moves(s, t) && |t.results| == i + 1
  {
    hide Bounded, IdsBefore, WellFormed, IsPrefix, Finished, IsComplete;
    PrefixMore(cfg, s.results, i, value);
    NextIsNew(cfg, s.results, i);
  }

  predicate Approves(cfg: Config, results: map<StepId, Value>, verdict: Verdict) { verdict.Approved? && cfg.admits(results) }

  /** Nothing is left to do but to have the results approved. */
  ghost predicate Ends(cfg: Config, s: State)
  {
    |s.results| >= |cfg.steps| || (Finished(cfg, s.results) == Some(true) && s.Unresolved() == {})
  }

  /** What the row, or the last report of a step, shows for an error. */
  ghost predicate Grounds(cfg: Config, code: Code, s: State, reported: Report)
  {
    match code
    case Invalid => s.rejected
    case Unavailable => s.status == VerificationUnavailable
    case StepFailed => reported == Exception
    case BadPayload => reported == Unencodable
    case CompletionFailed => |s.results| < |cfg.steps| && Finished(cfg, s.results).None?
    case NotAllowed => Refuses(cfg, s, NotAllowed)
    case Exhausted => Refuses(cfg, s, Exhausted)
    case Unknown => Refuses(cfg, s, Unknown) || (|s.results| < |cfg.steps| && Finished(cfg, s.results) == Some(true) && s.Unresolved() != {})
    case _ => false
  }

  /** The step after the results is due, but the journal does not allow it to be started. */
  ghost predicate Refuses(cfg: Config, s: State, code: Code)
  {
    && |s.results| < |cfg.steps| && Finished(cfg, s.results) == Some(false)
    && !CanStart(cfg, s, |s.results|) && code == Refusal(cfg.steps[|s.results|])
  }

  /** An interruption or a crash comes from a step or from the verifier. */
  ghost predicate Cut(out: Outcome, reported: Report, verdict: Verdict)
  {
    match out
    case Interrupted(deadline) => reported == Halted(deadline) || verdict == Stopped(deadline)
    case Crashed => reported == Gone || verdict == Lost
    case _ => true
  }

  /** Asks the verifier about the run as it stands; a rejection drops every result. */
  method Verify(cfg: Config, j: Journal, s: State, verdict: Verdict) returns (t: State, out: Outcome)
    requires Kept(cfg, j.row, j.log, j.starts, j.made) && s == j.row && !s.rejected
    modifies j
    ensures Kept(cfg, j.row, j.log, j.starts, j.made) && old(j.log) <= j.log && j.starts == old(j.starts)
    ensures j.row.forgotten == s.forgotten
    ensures out.Continue? <==> Approves(cfg, s.results, verdict)
    ensures verdict.Rejected? || (verdict.Approved? && !cfg.admits(s.results)) ==> out == Raised(Invalid)
    ensures verdict.Unreachable? ==> out == Raised(Unavailable)
    ensures verdict.Stopped? ==> out == Interrupted(verdict.deadline)
    ensures verdict.Lost? ==> out == Crashed
    ensures out.Continue? ==> t == s && j.row == s && j.vouched == Some(s.results)
    ensures !out.Continue? ==> out.Crashed? || out.Interrupted? || out.Raised?
    ensures out.Raised? || out.Interrupted? ==> t == j.row
    ensures out.Interrupted? || out.Crashed? ==> j.row == s
    ensures Cut(out, j.reported, verdict)
    ensures j.reported == old(j.reported)
    ensures out.Raised? ==> (out.code == Invalid && t == RejectedRow(s)) || (out.code == Unavailable && t == s.(status := VerificationUnavailable))
  {
    hide StateOk, Counted, Linked;
    assert StateOk(cfg, j.log[|j.log| - 1]);
    t := s;
    match if verdict.Approved? && !cfg.admits(s.results) then Rejected else verdict {
      case Approved =>
        j.Vouch(s.results);
        out := Continue;
      case Stopped(deadline) => out := Interrupted(deadline);
      case Lost => out := Crashed;
      case Unreachable =>
        t := s.(status := VerificationUnavailable);
        StatusMoves(cfg, s, VerificationUnavailable);
        KeptMore(cfg, j.row, j.log, j.starts, j.made, t);
        j.Save(t);
        out := Raised(Unavailable);
      case Rejected =>
        t := RejectedRow(s);
        RejectMoves(cfg, s);
        KeptMore(cfg, j.row, j.log, j.starts, j.made, t);
        j.Save(t);
        out := Raised(Invalid);
    }
  }

  /** Runs the body of step `i` once, as attempt `attempt`. Continue means a result was saved. */
  method Attempt(cfg: Config, j: Journal, s: State, i: nat, attempt: nat) returns (t: State, out: Outcome)
    requires WellFormed(cfg) && Kept(cfg, j.row, j.log, j.starts, j.made) && s == j.row && !s.rejected && i == |s.results| < |cfg.steps|
    requires s.Attempt(cfg.steps[i].id) < attempt <= Allowed(cfg, cfg.steps[i]) && Finished(cfg, s.results) == Some(false)
    modifies j
    ensures Kept(cfg, j.row, j.log, j.starts, j.made) && old(j.log) <= j.log && j.starts == old(j.starts) + [cfg.steps[i].id]
    ensures out.Crashed? || (t == j.row && !t.rejected)
    ensures out.Continue? || out.Raised? || out.Interrupted? || out.Crashed?
    ensures if out.Continue? then |t.results| == i + 1 else j.row.results == s.results
    ensures j.row.forgotten == old(j.row).forgotten
    ensures out.Raised? ==> (out.code == StepFailed || out.code == BadPayload) && t.status == Failed
    ensures out.Raised? ==> t == Started(cfg, s, i, attempt).(status := Failed)
    ensures out.Interrupted? ==> t == Started(cfg, s, i, attempt)
    ensures match j.reported
      case Value(value) => out == Continue && j.made == old(j.made)[cfg.steps[i].id := value]
      case Exception => out == Raised(StepFailed)
      case Unencodable => out == Raised(BadPayload)
      case Halted(deadline) => out == Interrupted(deadline)
      case Gone => out == Crashed
    ensures out.Continue? ==> cfg.steps[i].id in j.made && t == Resulted(Started(cfg, s, i, attempt), cfg.steps[i].id, j.made[cfg.steps[i].id])
  {
    hide StateOk, Counted, Linked, WellFormed, Allowed;
    assert StateOk(cfg, j.log[|j.log| - 1]);
    var id := cfg.steps[i].id;
    t := Started(cfg, s, i, attempt);
    StartMoves(cfg, s, i, attempt);
    KeptMore(cfg, j.row, j.log, j.starts, j.made, t);
    StartCounted(j.starts, s, t, id);
    j.Save(t);
    var report := j.Call(id);
    match report {
      case Halted(deadline) => out := Interrupted(deadline);
      case Gone => out := Crashed;
      case Exception =>
        t := SetStatus(cfg, j, t, Failed);
        out := Raised(StepFailed);
      case Unencodable =>
        t := SetStatus(cfg, j, t, Failed);
        out := Raised(BadPayload);
      case Value(value) =>
        ResultMoves(cfg, t, i, value);
        ghost var started := t;
        t := Resulted(t, id, value);
        KeptMore(cfg, j.row, j.log, j.starts, j.made, t);
        j.Save(t);
        out := Continue;
    }
  }

  method SetStatus(cfg: Config, j: Journal, s: State, status: Status) returns (t: State)
    requires Kept(cfg, j.row, j.log, j.starts, j.made) && s == j.row && !s.rejected
    requires status != SourcesInvalid && (status == Completed ==> IsComplete(cfg, s))
    modifies j
    ensures Kept(cfg, j.row, j.log, j.starts, j.made) && old(j.log) <= j.log && j.starts == old(j.starts)
    ensures t == j.row == s.(status := status) && j.vouched == old(j.vouched)
    ensures j.made == old(j.made) && j.reported == old(j.reported)
  {
    hide StateOk, Counted, Linked;
    assert StateOk(cfg, j.log[|j.log| - 1]);
    t := s.(status := status);
    StatusMoves(cfg, s, status);
    KeptMore(cfg, j.row, j.log, j.starts, j.made, t);
    j.Save(t);
  }

  lemma NextStep(cfg: Config, s: State, i: nat)
    requires WellFormed(cfg) && StateOk(cfg, s) && i <= |s.results| && i < |cfg.steps|
    ensures cfg.steps[i].id in s.results <==> i < |s.results|
  {
    hide Bounded, IsComplete, Resolved;
    if i == |s.results| { NextIsNew(cfg, s.results, i); }
  }

  lemma Complete(cfg: Config, s: State)
    requires WellFormed(cfg) && StateOk(cfg, s) && !s.rejected && cfg.admits(s.results)
    requires |s.results| == |cfg.steps| || (Finished(cfg, s.results) == Some(true) && s.Unresolved() == {})
    ensures IsComplete(cfg, s)
    ensures var t := s.(status := Completed, inflight := None); StateOk(cfg, t) && Moves(s, t)
  {
    hide Bounded, IsPrefix;
    assert forall id :: id in s.Unresolved() <==> id in s.attempts && id !in s.results;
  }

  /** What the executor does about step `i`; `finished` says that the completion condition ends the run before it. */
  method Advance(cfg: Config, j: Journal, s: State, i: nat, verdict: Verdict) returns (t: State, finished: bool, out: Outcome)
    requires WellFormed(cfg) && Kept(cfg, j.row, j.log, j.starts, j.made) && s == j.row && !s.rejected && i <= |s.results| && i < |cfg.steps|
    modifies j
    ensures Kept(cfg, j.row, j.log, j.starts, j.made) && old(j.log) <= j.log && old(j.starts) <= j.starts
    ensures out.Continue? || out.Raised? || out.Interrupted? || out.Crashed?
    ensures out.Raised? ==> Explains(out.code, j.row) && Grounds(cfg, out.code, j.row, j.reported)
    ensures Cut(out, j.reported, verdict) && (!out.Continue? && !j.row.rejected ==> !Ends(cfg, j.row))
    ensures out.Interrupted? ==> !j.row.rejected
    ensures out.Continue? ==> t == j.row && !t.rejected
    ensures j.row.forgotten == old(j.row).forgotten
    ensures out.Continue? ==> if finished then t == s && Finished(cfg, t.results) == Some(true) && t.Unresolved() == {} else i < |t.results|
    ensures i == |s.results| && Finished(cfg, s.results).None? ==> out == Raised(CompletionFailed)
    ensures i == |s.results| && Finished(cfg, s.results) == Some(true) ==>
      if s.Unresolved() == {} then out.Continue? && finished else out == Raised(Unknown)
    ensures j.starts != old(j.starts) <==> i == |s.results| && StartsNext(cfg, s, verdict)
    ensures i < |s.results| ==> out.Continue? && !finished && t == s
    ensures out.Continue? && !finished && i == |s.results| ==> |j.starts| > |old(j.starts)|
  {
    hide StateOk, Counted, Linked, WellFormed, IsComplete, Finished, CanStart, Moves, Refuses, Approves;
    t, finished, out := s, false, Continue;
    RowOk(cfg, j.row, j.log, j.starts, j.made);
    NextStep(cfg, s, i);
    if cfg.steps[i].id in s.results { return; }
    var done := Finished(cfg, s.results);
    if done.None? {
      t := SetStatus(cfg, j, s, Failed);
      out := Raised(CompletionFailed);
      return;
    }
    if done.value {
      finished := true;
      if s.Unresolved() != {} {
        t := SetStatus(cfg, j, s, OutcomeUnknown);
        out := Raised(Unknown);
      }
      return;
    }
    if cfg.verifyBefore {
      t, out := Verify(cfg, j, s, verdict);
      if !out.Continue? { return; }
    }
    t, out := Perform(cfg, j, t, i);
  }

  /** The steps of a run, in order; Continue means that nothing is left to do but conclude. */
  method Steps(cfg: Config, j: Journal, row: State, verdicts: Verdicts) returns (s: State, out: Outcome)
    requires WellFormed(cfg) && Kept(cfg, j.row, j.log, j.starts, j.made) && row == j.row && !row.rejected && |row.results| <= |cfg.steps|
    modifies j
    ensures Kept(cfg, j.row, j.log, j.starts, j.made) && old(j.log) <= j.log && old(j.starts) <= j.starts
    ensures out.Continue? || out.Raised? || out.Interrupted? || out.Crashed?
    ensures out.Raised? ==> Explains(out.code, j.row) && Grounds(cfg, out.code, j.row, j.reported)
    ensures out.Continue? || exists k :: Cut(out, j.reported, verdicts(k))
    ensures if out.Continue? then Ends(cfg, s) else !j.row.rejected ==> !Ends(cfg, j.row)
    ensures out.Interrupted? ==> !j.row.rejected
    ensures out.Continue? ==> s == j.row && !s.rejected
    ensures j.row.forgotten == row.forgotten
    ensures j.starts != old(j.starts) <==> StartsNext(cfg, row, verdicts(1 + |row.results|))
  {
    hide StateOk, Counted, Linked, WellFormed, IsComplete, Finished, CanStart, Moves, Kept, Explains, Approves;
    s, out := row, Continue;
    var i, finished := 0, false;
    while i < |cfg.steps| && !finished
      invariant Kept(cfg, j.row, j.log, j.starts, j.made) && old(j.log) <= j.log && old(j.starts) <= j.starts
      invariant s == j.row && !s.rejected && i <= |s.results| && i <= |cfg.steps| && out.Continue?
      invariant finished ==> Finished(cfg, s.results) == Some(true) && s.Unresolved() == {}
      invariant j.row.forgotten == row.forgotten
      invariant i <= |row.results| ==> s == row && j.starts == old(j.starts)
      invariant finished && i <= |row.results| ==> i == |row.results|
      invariant i > |row.results| ==> |j.starts| > |old(j.starts)| && StartsNext(cfg, row, verdicts(1 + |row.results|))
      decreases |cfg.steps| - i, !finished
    {
      s, finished, out := Advance(cfg, j, s, i, verdicts(1 + i));
      if !out.Continue? { return; }
      if !finished { i := i + 1; }
    }
  }

  /**
   * One run of the executor, from whatever the journal holds. It may fail, be interrupted or crash wherever it waits,
   * and the verifier and the steps may answer anything.
   */
  method Execute(cfg: Config, j: Journal, verdicts: Verdicts) returns (out: Outcome)
    requires WellFormed(cfg) && Kept(cfg, j.row, j.log, j.starts, j.made)
    modifies j
    ensures Kept(cfg, j.row, j.log, j.starts, j.made) && old(j.log) <= j.log && old(j.starts) <= j.starts
    ensures old(j.row).rejected ==> j.row == old(j.row) && j.starts == old(j.starts) && out == Raised(Invalid)
    ensures out.Returned? ==> j.row.status == Completed && !j.row.rejected && out.results == j.row.results && j.vouched == Some(out.results)
    ensures out.Raised? ==> Explains(out.code, j.row) && Grounds(cfg, out.code, j.row, j.reported)
    ensures exists k :: Cut(out, j.reported, verdicts(k))
    ensures Approves(cfg, old(j.row).results, verdicts(0)) && !j.row.rejected && Ends(cfg, j.row) ==>
      (out.Returned? <==> Approves(cfg, j.row.results, verdicts(1 + |cfg.steps|)))
    ensures out.Interrupted? ==> !j.row.rejected
    ensures !out.Continue? && !out.Waiting? && j.row.forgotten == old(j.row).forgotten
    ensures j.starts != old(j.starts) <==> Starts(cfg, old(j.row), verdicts)
    ensures verdicts(0).Rejected? ==> out == Raised(Invalid) && j.row.attempts == old(j.row).attempts
  {
    hide StateOk, Counted, Linked, WellFormed, IsComplete, Finished, CanStart, Moves, Kept, Explains, Approves, StartsNext, Ends, Grounds, Refuses;
    var s := j.row;
    StatusRejects(cfg, j.row, j.log, j.starts, j.made);
    if s.status == SourcesInvalid {
      VerifyExplains(cfg, Raised(Invalid), s, j.reported);
      assert Cut(Raised(Invalid), j.reported, verdicts(0));
      return Raised(Invalid);
    }
    RowOk(cfg, s, j.log, j.starts, j.made);
    PrefixLength(cfg, s);
    s, out := Verify(cfg, j, s, verdicts(0));
    if !out.Continue? {
      if out.Raised? { VerifyExplains(cfg, out, s, j.reported); }
      return;
    }
    s, out := Steps(cfg, j, s, verdicts);
    if !out.Continue? { return; }
    out := Conclude(cfg, j, s, verdicts(1 + |cfg.steps|));
  }

  /** The end of a run: the verifier is asked once more about exactly the results that are returned. */
  method Conclude(cfg: Config, j: Journal, s: State, verdict: Verdict) returns (out: Outcome)
    requires WellFormed(cfg) && Kept(cfg, j.row, j.log, j.starts, j.made) && s == j.row && !s.rejected
    requires Ends(cfg, s)
    modifies j
    ensures Kept(cfg, j.row, j.log, j.starts, j.made) && old(j.log) <= j.log && j.starts == old(j.starts)
    ensures j.row.forgotten == old(j.row).forgotten
    ensures out.Returned? || out.Raised? || out.Interrupted? || out.Crashed?
    ensures out.Returned? <==> Approves(cfg, s.results, verdict)
    ensures out.Returned? ==> j.row.status == Completed && !j.row.rejected && out.results == j.row.results == s.results && j.vouched == Some(s.results)
    ensures out.Raised? ==> Explains(out.code, j.row) && Grounds(cfg, out.code, j.row, j.reported)
    ensures Cut(out, j.reported, verdict) && (!j.row.rejected ==> j.row.results == s.results)
    ensures out.Interrupted? ==> !j.row.rejected
  {
    hide StateOk, Counted, Linked, WellFormed, IsComplete, Finished, Moves;
    var t: State;
    t, out := Verify(cfg, j, s, verdict);
    if !out.Continue? { return; }
    RowOk(cfg, j.row, j.log, j.starts, j.made);
    PrefixLength(cfg, s);
    Complete(cfg, s);
    KeptMore(cfg, j.row, j.log, j.starts, j.made, s.(status := Completed, inflight := None));
    j.Save(s.(status := Completed, inflight := None));
    out := Returned(s.results);
  }

  lemma VerifyExplains(cfg: Config, out: Outcome, s: State, reported: Report)
    requires out.Raised? ==> (out.code == Invalid && s.rejected) || (out.code == Unavailable && s.status == VerificationUnavailable)
    ensures out.Raised? ==> Explains(out.code, s) && Grounds(cfg, out.code, s, reported)
  {}

  lemma RowOk(cfg: Config, row: State, log: seq<State>, starts: seq<StepId>, made: map<StepId, Value>)
    requires Kept(cfg, row, log, starts, made)
    ensures StateOk(cfg, row)
  {}

  lemma StatusRejects(cfg: Config, row: State, log: seq<State>, starts: seq<StepId>, made: map<StepId, Value>)
    requires Kept(cfg, row, log, starts, made)
    ensures row.status == SourcesInvalid <==> row.rejected
  {
    assert StateOk(cfg, log[|log| - 1]);
  }

  lemma PrefixLength(cfg: Config, s: State)
    requires StateOk(cfg, s)
    ensures |s.results| <= |cfg.steps|
  {}

  /** Whether the journal allows step `i` to be started: never started, or idempotent and retryable with retries left. */
  predicate CanStart(cfg: Config, s: State, i: nat)
    requires i < |cfg.steps|
  {
    var step, previous := cfg.steps[i], s.Attempt(cfg.steps[i].id);
    previous < Allowed(cfg, step) && (previous == 0 || (step.Work? && step.idempotent && step.retryable))
  }

  /** The step after the results is due, and the verifier, if it is asked before a step, approves. */
  predicate StartsNext(cfg: Config, s: State, verdict: Verdict)
  {
    && |s.results| < |cfg.steps| && Finished(cfg, s.results) == Some(false)
    && (cfg.verifyBefore ==> Approves(cfg, s.results, verdict)) && CanStart(cfg, s, |s.results|)
  }

  /** Exactly when a run from this row starts a step. */
  predicate Starts(cfg: Config, s: State, verdicts: Verdicts)
  {
    && s.status != SourcesInvalid && Approves(cfg, s.results, verdicts(0))
    && StartsNext(cfg, s, verdicts(1 + |s.results|))
  }

  /** Refuses to start a step that has been started and must not be again. */
  method Refuse(cfg: Config, j: Journal, s: State, i: nat) returns (t: State, out: Outcome)
    requires Kept(cfg, j.row, j.log, j.starts, j.made) && s == j.row && !s.rejected && i == |s.results| < |cfg.steps|
    requires s.Attempt(cfg.steps[i].id) > 0 && !(WorkStep(cfg.steps[i]) && cfg.steps[i].idempotent && cfg.steps[i].retryable)
    modifies j
    ensures Kept(cfg, j.row, j.log, j.starts, j.made) && old(j.log) <= j.log && j.starts == old(j.starts)
    ensures j.reported == old(j.reported) && t == j.row && out == Raised(Refusal(cfg.steps[i]))
    ensures t == s.(status := if out.code == Unknown then OutcomeUnknown else RetryNotAllowed) && Explains(out.code, t)
  {
    hide StateOk, Counted, Linked;
    if WorkStep(cfg.steps[i]) && !cfg.steps[i].idempotent {
      t := SetStatus(cfg, j, s, OutcomeUnknown);
      return t, Raised(Unknown);
    }
    t := SetStatus(cfg, j, s, RetryNotAllowed);
    out := Raised(NotAllowed);
  }

  lemma StartedUnresolved(cfg: Config, row: State, log: seq<State>, starts: seq<StepId>, made: map<StepId, Value>, i: nat)
    requires WellFormed(cfg) && Kept(cfg, row, log, starts, made) && i == |row.results| < |cfg.steps| && row.Attempt(cfg.steps[i].id) > 0
    ensures row.Unresolved() != {}
  {
    NextIsNew(cfg, row.results, i);
    assert cfg.steps[i].id in row.Unresolved();
  }

  /** Starts step `i` as often as its retries allow, unless an earlier start leaves its outcome unknown. */
  method Perform(cfg: Config, j: Journal, s: State, i: nat) returns (t: State, out: Outcome)
    requires WellFormed(cfg) && Kept(cfg, j.row, j.log, j.starts, j.made) && s == j.row && !s.rejected && i == |s.results| < |cfg.steps|
    requires Finished(cfg, s.results) == Some(false) && (cfg.verifyBefore ==> j.vouched == Some(s.results))
    modifies j
    ensures Kept(cfg, j.row, j.log, j.starts, j.made) && old(j.log) <= j.log && old(j.starts) <= j.starts
    ensures out.Crashed? || (t == j.row && !t.rejected)
    ensures out.Continue? || out.Raised? || out.Interrupted? || out.Crashed?
    ensures out.Raised? ==> Explains(out.code, t) && Grounds(cfg, out.code, t, j.reported)
    ensures if out.Continue? then |t.results| == i + 1 else j.row.results == s.results
    ensures forall verdict :: Cut(out, j.reported, verdict)
    ensures j.row.forgotten == old(j.row).forgotten
    ensures j.starts != old(j.starts) <==> CanStart(cfg, s, i)
    ensures !CanStart(cfg, s, i) ==> out == Raised(Refusal(cfg.steps[i]))
    ensures out == Raised(StepFailed) ==>
      !(cfg.automatic && WorkStep(cfg.steps[i]) && cfg.steps[i].retryable) || t.Attempt(cfg.steps[i].id) == Allowed(cfg, cfg.steps[i])
    ensures !(cfg.automatic && WorkStep(cfg.steps[i]) && cfg.steps[i].retryable) ==> |j.starts| <= |old(j.starts)| + 1
  {
    hide StateOk, Counted, Linked, WellFormed, Finished, Kept;
    var step := cfg.steps[i];
    var previous := s.Attempt(step.id);
    t := s;
    if previous > 0 && !(WorkStep(step) && step.idempotent && step.retryable) {
      t, out := Refuse(cfg, j, s, i);
      return;
    }
    var maximum := Allowed(cfg, step);
    if previous >= maximum {
      StartedUnresolved(cfg, j.row, j.log, j.starts, j.made, i);
      return t, Raised(Exhausted);
    }
    var attempt := previous + 1;
    while true
      invariant Kept(cfg, j.row, j.log, j.starts, j.made) && old(j.log) <= j.log && old(j.starts) <= j.starts
      invariant j.row.forgotten == old(j.row).forgotten
      invariant t == j.row && !t.rejected && t.results == s.results && t.Attempt(step.id) < attempt <= maximum
      invariant attempt > previous + 1 ==> cfg.automatic && WorkStep(step) && step.retryable
      invariant attempt == previous + 1 ==> j.starts == old(j.starts)
      invariant CanStart(cfg, s, i) && (attempt > previous + 1 ==> |j.starts| > |old(j.starts)|)
      decreases maximum - attempt
    {
      t, out := Attempt(cfg, j, t, i, attempt);
      if out.Continue? || !out.Raised? || out.code != StepFailed { return; }
      if !cfg.automatic || !WorkStep(step) || !step.retryable || attempt == maximum { return; }
      attempt := attempt + 1;
    }
  }

  predicate WorkStep(step: Step) { step.Work? }

  /** Why a step is not started again. */
  function Refusal(step: Step): Code
  {
    if !step.Work? then NotAllowed else if !step.idempotent then Unknown else if !step.retryable then NotAllowed else Exhausted
  }

  /** An interruption recorded before the executor's first step: a rejection that only the status told is forgotten. */
  function Overwritten(s: State): State
  {
    s.(status := Cancelled, rejected := false, forgotten := s.forgotten + if s.rejected then 1 else 0)
  }

  lemma OverwriteMoves(cfg: Config, s: State)
    requires StateOk(cfg, s)
    ensures StateOk(cfg, Overwritten(s)) && Moves(s, Overwritten(s))
  {}

  /**
   * `run`: an interruption is recorded, unless the process is gone. `early` says that it arrives before the executor has
   * taken its first step.
   */
  method Run(cfg: Config, j: Journal, early: bool, verdicts: Verdicts) returns (out: Outcome)
    requires WellFormed(cfg) && Kept(cfg, j.row, j.log, j.starts, j.made)
    modifies j
    ensures Kept(cfg, j.row, j.log, j.starts, j.made) && old(j.log) <= j.log && old(j.starts) <= j.starts
    ensures early ==> j.row == Overwritten(old(j.row)) && j.starts == old(j.starts) && out == Interrupted(false)
    ensures !early ==> (j.starts != old(j.starts) <==> Starts(cfg, old(j.row), verdicts)) && j.row.forgotten == old(j.row).forgotten
    ensures verdicts(0).Rejected? && !early ==> out == Raised(Invalid) && j.row.attempts == old(j.row).attempts
    ensures old(j.row).rejected && !early ==> j.row == old(j.row) && j.starts == old(j.starts) && out == Raised(Invalid)
    ensures out.Returned? ==> j.row.status == Completed && !j.row.rejected && out.results == j.row.results && j.vouched == Some(out.results)
    ensures out.Raised? ==> Explains(out.code, j.row) && Grounds(cfg, out.code, j.row, j.reported)
    ensures early || exists k :: Cut(out, j.reported, verdicts(k))
    ensures !early && Approves(cfg, old(j.row).results, verdicts(0)) && !j.row.rejected && Ends(cfg, j.row) ==>
      (out.Returned? <==> Approves(cfg, j.row.results, verdicts(1 + |cfg.steps|)))
    ensures out.Interrupted? ==> j.row.status == if out.deadline then Deadline else Cancelled
  {
    hide StateOk, Counted, Linked, WellFormed, Moves, Starts;
    if early {
      RowOk(cfg, j.row, j.log, j.starts, j.made);
      OverwriteMoves(cfg, j.row);
      KeptMore(cfg, j.row, j.log, j.starts, j.made, Overwritten(j.row));
      j.Save(Overwritten(j.row));
      return Interrupted(false);
    }
    out := Execute(cfg, j, verdicts);
    if out.Interrupted? {
      var s := SetStatus(cfg, j, j.row, if out.deadline then Deadline else Cancelled);
    }
  }

  /** The ids of the steps that have results, in plan order. */
  function CompletedSteps(steps: seq<Step>, results: map<StepId, Value>): seq<StepId>
  {
    if steps == [] then [] else (if steps[0].id in results then [steps[0].id] else []) + CompletedSteps(steps[1..], results)
  }

  function Ids(steps: seq<Step>): (ids: seq<StepId>)
    ensures |ids| == |steps|
    ensures forall i :: 0 <= i < |steps| ==> ids[i] == steps[i].id
  {
    seq(|steps|, i requires 0 <= i < |steps| => steps[i].id)
  }

  /** `read_result`: returns a completed result after asking the verifier again; never starts a step. */
  method ReadResult(cfg: Config, j: Journal, verdict: Verdict) returns (out: Outcome)
    requires WellFormed(cfg) && Kept(cfg, j.row, j.log, j.starts, j.made)
    modifies j
    ensures Kept(cfg, j.row, j.log, j.starts, j.made) && old(j.log) <= j.log && j.starts == old(j.starts)
    ensures out.Returned? <==> Readable(cfg, old(j.row)) && Approves(cfg, old(j.row).results, verdict)
    ensures out.Returned? ==> out.results == old(j.row).results
    ensures old(j.row).rejected ==> j.row == old(j.row) && out == Raised(NotCompleted)
    ensures Readable(cfg, old(j.row)) && verdict == Stopped(true) ==> out == Raised(Unavailable)
    ensures j.row.forgotten == old(j.row).forgotten
    ensures out.Returned? ==> j.row.status == Completed && !j.row.rejected && out.results == j.row.results && j.vouched == Some(out.results)
  {
    hide StateOk, Counted, Linked, WellFormed, IsComplete;
    var s := j.row;
    var expected, completed := Ids(cfg.steps), CompletedSteps(cfg.steps, s.results);
    var partial := completed != expected;
    StatusRejects(cfg, j.row, j.log, j.starts, j.made);
    RowOk(cfg, j.row, j.log, j.starts, j.made);
    assert IsPrefix(cfg, s.results) by { PrefixOf(cfg, s); }
    PrefixCompleted(cfg, s);
    if (s.status != Completed && s.status != VerificationUnavailable) || s.inflight.Some?
       || (partial && (cfg.completion.None? || |completed| > |expected| || completed != expected[..|completed|])) {
      return Raised(NotCompleted);
    }
    s, out := Verify(cfg, j, s, verdict);
    if out.Interrupted? && out.deadline { return Raised(Unavailable); }
    if !out.Continue? { return; }
    if partial {
      var finished := Finished(cfg, s.results);
      if finished != Some(true) { return Raised(if finished.None? then CompletionFailed else NotCompleted); }
    }
    RowOk(cfg, j.row, j.log, j.starts, j.made);
    ReadComplete(cfg, s);
    s := SetStatus(cfg, j, s, Completed);
    out := Returned(s.results);
  }

  lemma PrefixOf(cfg: Config, s: State)
    requires StateOk(cfg, s)
    ensures IsPrefix(cfg, s.results)
  {}

  /** The steps with results are the first ones of the plan. */
  lemma PrefixCompleted(cfg: Config, s: State)
    requires WellFormed(cfg) && IsPrefix(cfg, s.results)
    ensures CompletedSteps(cfg.steps, s.results) == Ids(cfg.steps)[..|s.results|]
    ensures CompletedSteps(cfg.steps, s.results) == Ids(cfg.steps) <==> |s.results| == |cfg.steps|
  {
    forall i | 0 <= i < |cfg.steps| ensures cfg.steps[i].id in s.results <==> i < |s.results| {
      if cfg.steps[i].id in s.results {
        var k :| 0 <= k < |s.results| && cfg.steps[k].id == cfg.steps[i].id;
      }
    }
    CompletedFrom(cfg, s.results, |s.results|, 0);
    assert cfg.steps[0..] == cfg.steps && Ids(cfg.steps)[0..|s.results|] == Ids(cfg.steps)[..|s.results|];
  }

  lemma {:induction false} CompletedFrom(cfg: Config, results: map<StepId, Value>, n: nat, k: nat)
    requires n <= |cfg.steps| && k <= |cfg.steps|
    requires forall i :: 0 <= i < |cfg.steps| ==> (cfg.steps[i].id in results <==> i < n)
    ensures CompletedSteps(cfg.steps[k..], results) == if k < n then Ids(cfg.steps)[k..n] else []
    decreases |cfg.steps| - k
  {
    if k < |cfg.steps| {
      CompletedFrom(cfg, results, n, k + 1);
      assert cfg.steps[k..][1..] == cfg.steps[k + 1..] && cfg.steps[k..][0] == cfg.steps[k];
    }
  }

  /** The row shows a completed run: all steps, or as many as satisfied the completion condition. */
  ghost predicate Readable(cfg: Config, s: State)
  {
    && (s.status == Completed || s.status == VerificationUnavailable) && s.inflight.None?
    && (|s.results| == |cfg.steps| || Finished(cfg, s.results) == Some(true))
  }

  lemma {:induction false} AllCompleted(steps: seq<Step>, results: map<StepId, Value>)
    ensures CompletedSteps(steps, results) == Ids(steps) ==> forall i :: 0 <= i < |steps| ==> steps[i].id in results
    ensures |CompletedSteps(steps, results)| <= |steps|
  {
    if steps != [] {
      AllCompleted(steps[1..], results);
      if CompletedSteps(steps, results) == Ids(steps) {
        assert Ids(steps)[0] == steps[0].id && Ids(steps)[1..] == Ids(steps[1..]);
        if steps[0].id in results { assert CompletedSteps(steps, results)[1..] == CompletedSteps(steps[1..], results); }
      }
    }
  }

  lemma ReadComplete(cfg: Config, s: State)
    requires WellFormed(cfg) && StateOk(cfg, s) && !s.rejected && s.inflight.None? && cfg.admits(s.results)
    requires CompletedSteps(cfg.steps, s.results) != Ids(cfg.steps) ==> Finished(cfg, s.results) == Some(true)
    ensures IsComplete(cfg, s)
  {
    hide Bounded;
    AllCompleted(cfg.steps, s.results);
    if |s.results| < |cfg.steps| { NextIsNew(cfg, s.results, |s.results|); }
  }

  datatype Call = Read(verdict: Verdict) | Begin(early: bool, verdicts: Verdicts)

  /**
   * Any number of runs and reads of one journal, by processes that may have crashed at any point. A rejected run starts
   * nothing and stays as it is, unless an early interruption has made the journal forget the rejection.
   */
  method Sessions(cfg: Config, j: Journal, calls: seq<Call>)
    requires WellFormed(cfg) && Kept(cfg, j.row, j.log, j.starts, j.made)
    modifies j
    ensures Kept(cfg, j.row, j.log, j.starts, j.made) && old(j.log) <= j.log && old(j.starts) <= j.starts
    ensures old(j.row).rejected && j.row.forgotten == old(j.row).forgotten ==> j.row == old(j.row) && j.starts == old(j.starts)
    ensures (forall i :: 0 <= i < |calls| && calls[i].Begin? ==> !calls[i].early) ==> j.row.forgotten == old(j.row).forgotten
  {
    hide Kept, WellFormed, Starts;
    for i := 0 to |calls|
      invariant Kept(cfg, j.row, j.log, j.starts, j.made) && old(j.log) <= j.log && old(j.starts) <= j.starts
      invariant old(j.row).forgotten <= j.row.forgotten
      invariant old(j.row).rejected && j.row.forgotten == old(j.row).forgotten ==> j.row == old(j.row) && j.starts == old(j.starts)
      invariant (forall k :: 0 <= k < i && calls[k].Begin? ==> !calls[k].early) ==> j.row.forgotten == old(j.row).forgotten
    {
      match calls[i] {
        case Read(verdict) => var r := ReadResult(cfg, j, verdict);
        case Begin(early, verdicts) => var r := Run(cfg, j, early, verdicts);
      }
    }
  }

  lemma NewJournal(cfg: Config)
    requires WellFormed(cfg)
    ensures Kept(cfg, FRESH, [FRESH], [], map[])
  {
    assert IdsBefore(cfg, 0) == {};
  }

  /** Over all runs, a step is started at most once, or at most 1 + retries times if it is retryable. */
  lemma StartsBounded(cfg: Config, row: State, log: seq<State>, starts: seq<StepId>, made: map<StepId, Value>, i: nat)
    requires WellFormed(cfg) && Kept(cfg, row, log, starts, made) && i < |cfg.steps|
    ensures Count(starts, cfg.steps[i].id) <= if cfg.steps[i].Work? && cfg.steps[i].retryable then 1 + cfg.retries else 1
  {
    assert StateOk(cfg, log[|log| - 1]);
    var id := cfg.steps[i].id;
    assert Count(starts, id) <= row.Attempt(id);
    if id in row.attempts {
      var k :| 0 <= k < |cfg.steps| && cfg.steps[k].id == id && row.attempts[id] <= Allowed(cfg, cfg.steps[k]);
      assert k == i;
    }
  }

  /** Once a result is in the journal, every later row has it too, until the evidence is rejected. */
  lemma WriteOnce(cfg: Config, row: State, log: seq<State>, starts: seq<StepId>, made: map<StepId, Value>, x: nat, y: nat, id: StepId)
    requires Kept(cfg, row, log, starts, made) && x <= y < |log| && id in log[x].results
    requires !log[y].rejected && log[y].forgotten == log[x].forgotten
    ensures id in log[y].results && log[y].results[id] == log[x].results[id]
  {
    hide StateOk;
    if x < y { assert Moves(log[x], log[y]); }
  }

  /** Every result ever saved, up to a rejection, is what the body of its step last returned. */
  lemma ResultsGenuine(cfg: Config, row: State, log: seq<State>, starts: seq<StepId>, made: map<StepId, Value>, x: nat, id: StepId)
    requires Kept(cfg, row, log, starts, made) && x < |log| && id in log[x].results
    requires !row.rejected && log[x].forgotten == row.forgotten
    ensures id in made && made[id] == log[x].results[id]
  {
    hide StateOk, Counted;
    WriteOnce(cfg, row, log, starts, made, x, |log| - 1, id);
  }

  lemma WholePrefix(cfg: Config, results: map<StepId, Value>)
    requires IsPrefix(cfg, results)
    ensures Restrict(cfg, results, |results|) == results
  {
    hide IdsBefore, Finished;
  }

  /**
   * A completed row that leaves steps out holds the first results, in plan order, that satisfy the completion
   * condition: it holds of them, and of no shorter prefix. A row with all results had no prefix that satisfied it.
   */
  lemma FirstCompletion(cfg: Config, row: State, log: seq<State>, starts: seq<StepId>, made: map<StepId, Value>, x: nat, k: nat)
    requires Kept(cfg, row, log, starts, made) && x < |log| && log[x].status == Completed && k <= |log[x].results|
    ensures |log[x].results| <= |cfg.steps|
    ensures k < |cfg.steps| ==> Finished(cfg, Restrict(cfg, log[x].results, k)) == Some(k == |log[x].results|)
  {
    hide Bounded, IdsBefore, Restrict, Finished;
    var s := log[x];
    assert StateOk(cfg, s);
    if k == |s.results| {
      WholePrefix(cfg, s.results);
    } else {
      assert Finished(cfg, Restrict(cfg, s.results, k)) == Some(false);
    }
  }

  /**
   * A rejection is final but for this: interrupted early, and run again, a rejected run starts its first step, exactly
   * if the verifier approves now and neither the completion condition nor an earlier attempt stands against it.
   */
  method EarlyInterruption(cfg: Config, j: Journal, verdicts: Verdicts) returns (out: Outcome)
    requires WellFormed(cfg) && Kept(cfg, j.row, j.log, j.starts, j.made) && j.row.rejected
    modifies j
    ensures Kept(cfg, j.row, j.log, j.starts, j.made) && old(j.log) <= j.log && old(j.starts) <= j.starts
    ensures j.starts != old(j.starts) <==>
      && Approves(cfg, map[], verdicts(0)) && (cfg.verifyBefore ==> Approves(cfg, map[], verdicts(1)))
      && Finished(cfg, map[]) == Some(false) && CanStart(cfg, old(j.row), 0)
  {
    hide Counted, Linked, Finished, CanStart, Approves;
    RejectedEmpty(cfg, j.row, j.log, j.starts, j.made);
    ghost var was := j.row;
    out := Run(cfg, j, true, verdicts);
    assert CanStart(cfg, was, 0) <==> CanStart(cfg, j.row, 0) by { SameStart(cfg, was, j.row, 0); }
    out := Run(cfg, j, false, verdicts);
  }

  lemma RejectedEmpty(cfg: Config, row: State, log: seq<State>, starts: seq<StepId>, made: map<StepId, Value>)
    requires Kept(cfg, row, log, starts, made) && row.rejected
    ensures row.results == map[]
  {
    assert StateOk(cfg, log[|log| - 1]);
  }

  lemma SameStart(cfg: Config, s: State, t: State, i: nat)
    requires i < |cfg.steps| && s.attempts == t.attempts
    ensures CanStart(cfg, s, i) <==> CanStart(cfg, t, i)
  {}

  const LOOKUP := Config([Work(1, false, false)], 0, false, false, None, results => true)

  /** Such a run: its evidence is rejected before its only step, it is cancelled early, and then it starts that step. */
  method RejectionForgotten() returns (j: Journal)
    ensures j.starts != [] && exists k :: 0 <= k < |j.log| && j.log[k].rejected
  {
    hide Counted, Linked, StateOk;
    j := new Journal();
    NewJournal(LOOKUP);
    var out := Run(LOOKUP, j, false, call => Rejected);
    ghost var k := |j.log| - 1;
    assert j.row.rejected && j.starts == [] && j.log[k] == j.row;
    out := EarlyInterruption(LOOKUP, j, call => Approved);
  }
}
