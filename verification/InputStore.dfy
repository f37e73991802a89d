/**
 * Human answers to the inputs of one run: a request is made once, answered
 * once, and activated once, together with the other answers of its group.
 */
module InputStore {
  import opened Prelude

  type TaskId = nat
  type ContinuationId = nat
  type Bytes = seq<bv8>

  const MAX_CONTEXT := 32000
  const MAX_GROUP := 32

  datatype InputTask = InputTask(prompt: Bytes, maxResponse: nat)

  /** Everything of a record that its response digest covers. */
  datatype Contents = Contents(
    task: TaskId, invocation: nat, prompt: Bytes, context: Bytes, maxResponse: nat, response: Option<Bytes>,
    createdAt: nat, respondedAt: Option<nat>)

  datatype Record = Record(contents: Contents, revision: nat, activation: Option<ContinuationId>)

  datatype Activation = Activation(
    continuation: ContinuationId, invocation: nat, responses: map<TaskId, nat>, digests: map<TaskId, nat>, createdAt: nat)

  datatype Error =
    | InvalidContext | Cancelled | TaskNotFound | RequestConflict | NotFound | RevisionConflict | InvalidResponse
    | ResponseConflict | InvalidActivation | NotAnswered | ActivationConflict | Integrity | InvalidBudget

  datatype Result<T> = Ok(value: T) | Err(error: Error)

  /** What every stored record satisfies by itself. */
  ghost predicate RecordOk(r: Record)
  {
    && 1 <= r.revision <= 3 && (r.revision == 1 <==> r.contents.response.None?)
    && (r.contents.response.None? <==> r.contents.respondedAt.None?) && (r.revision == 3 <==> r.activation.Some?)
    && |r.contents.context| <= MAX_CONTEXT
    && (r.contents.response.Some? ==> |r.contents.response.value| <= r.contents.maxResponse)
  }

  /** A record is never taken back: its request and its answer stay, and an activated record does not change at all. */
  ghost predicate Follows(x: Record, y: Record)
  {
    && x.revision <= y.revision && (x.revision == 3 ==> y == x) && (x.contents.response.Some? ==> y.contents == x.contents)
    && y.contents == x.contents.(response := y.contents.response, respondedAt := y.contents.respondedAt)
  }

  ghost predicate Grows(x: map<TaskId, Record>, y: map<TaskId, Record>)
  {
    forall t :: t in x ==> t in y && Follows(x[t], y[t])
  }

  ghost predicate Keeps<K, V>(x: map<K, V>, y: map<K, V>) { forall k :: k in x ==> k in y && y[k] == x[k] }

  /** The records that an activation lists are activated by it, with the contents it took the digest of. */
  ghost predicate Lists(a: Activation, records: map<TaskId, Record>, digest: Contents -> nat)
  {
    && a.responses.Keys == a.digests.Keys && a.responses != map[] && |a.responses| <= MAX_GROUP
    && forall t :: t in a.responses ==>
         a.responses[t] == 2 && t in records && records[t].activation == Some(a.continuation)
         && a.digests[t] == digest(records[t].contents)
  }

  /** An activated record is listed by the activation it names. */
  ghost predicate Listed(r: Record, activations: map<ContinuationId, Activation>, digest: Contents -> nat)
  {
    r.activation.Some? ==>
      && r.activation.value in activations && r.contents.task in activations[r.activation.value].digests
      && activations[r.activation.value].digests[r.contents.task] == digest(r.contents)
  }

  /** The run that owns a store: its input tasks, the digest of its invocation, and the digest of responses. */
  datatype Run = Run(tasks: map<TaskId, InputTask>, invocation: nat, digest: Contents -> nat)

  ghost predicate Belongs(run: Run, t: TaskId, r: Record)
  {
    && RecordOk(r) && r.contents.task == t && r.contents.invocation == run.invocation && t in run.tasks
    && r.contents.prompt == run.tasks[t].prompt && r.contents.maxResponse == run.tasks[t].maxResponse
  }

  ghost predicate StoreOk(run: Run, records: map<TaskId, Record>, activations: map<ContinuationId, Activation>)
  {
    && (forall t :: t in records ==> Belongs(run, t, records[t]) && Listed(records[t], activations, run.digest))
    && forall c :: c in activations ==>
         activations[c].continuation == c && activations[c].invocation == run.invocation && Lists(activations[c], records, run.digest)
  }

  lemma GrowsSame(records: map<TaskId, Record>)
    ensures Grows(records, records)
  {}

  lemma ListsPut(a: Activation, records: map<TaskId, Record>, t: TaskId, r: Record, digest: Contents -> nat)
    requires Lists(a, records, digest) && (t in records ==> records[t].activation.None?)
    ensures Lists(a, records[t := r], digest)
  {}

  /** Writing a record that is not activated, over none or over one that is not activated. */
  lemma PutRecord(run: Run, records: map<TaskId, Record>, activations: map<ContinuationId, Activation>, t: TaskId, r: Record)
    requires StoreOk(run, records, activations) && Belongs(run, t, r) && r.activation.None?
    requires t in records ==> records[t].activation.None? && Follows(records[t], r)
    ensures StoreOk(run, records[t := r], activations) && Grows(records, records[t := r])
  {
    hide Belongs, Lists, Follows;
    var next := records[t := r];
    forall c | c in activations ensures Lists(activations[c], next, run.digest) { ListsPut(activations[c], records, t, r, run.digest); }
    forall k | k in records ensures Follows(records[k], next[k]) { if k != t { FollowsSelf(records[k]); } }
  }

  lemma FollowsSelf(r: Record)
    ensures Follows(r, r)
  {}

  function Activated(records: map<TaskId, Record>, group: set<TaskId>, c: ContinuationId): map<TaskId, Record>
  {
    map t | t in records :: if t in group then records[t].(revision := 3, activation := Some(c)) else records[t]
  }

  function DigestsOf(run: Run, records: map<TaskId, Record>, group: set<TaskId>): map<TaskId, nat>
  {
    map t | t in group && t in records :: (run.digest)(records[t].contents)
  }

  predicate Activatable(records: map<TaskId, Record>, t: TaskId, revision: nat)
  {
    t in records && records[t].contents.response.Some? && records[t].activation.None? && revision == records[t].revision
  }

  lemma OneActivated(run: Run, t: TaskId, r: Record, c: ContinuationId, revision: nat)
    requires Belongs(run, t, r) && r.contents.response.Some? && r.activation.None? && revision == r.revision
    ensures var n := r.(revision := 3, activation := Some(c));
      Belongs(run, t, n) && Follows(r, n) && n.contents == r.contents && revision == 2
  {}

  lemma ListsElsewhere(a: Activation, records: map<TaskId, Record>, group: set<TaskId>, c: ContinuationId, digest: Contents -> nat)
    requires Lists(a, records, digest) && forall t :: t in group ==> t in records && records[t].activation.None?
    ensures Lists(a, Activated(records, group, c), digest)
  {}

  lemma ListsGroup(run: Run, records: map<TaskId, Record>, c: ContinuationId, responses: map<TaskId, nat>, now: nat)
    requires 1 <= |responses| <= MAX_GROUP && forall t :: t in responses ==> t in records && responses[t] == 2
    ensures Lists(Activation(c, run.invocation, responses, DigestsOf(run, records, responses.Keys), now),
      Activated(records, responses.Keys, c), run.digest)
  {}

  lemma RecordActivated(run: Run, records: map<TaskId, Record>, activations: map<ContinuationId, Activation>, a: Activation, t: TaskId)
    requires StoreOk(run, records, activations) && a.continuation !in activations && t in records
    requires a.digests == DigestsOf(run, records, a.responses.Keys)
    requires t in a.responses ==> Activatable(records, t, a.responses[t])
    ensures var n := Activated(records, a.responses.Keys, a.continuation)[t];
      Belongs(run, t, n) && Follows(records[t], n) && Listed(n, activations[a.continuation := a], run.digest)
    ensures t in a.responses ==> a.responses[t] == 2
  {
    hide Belongs, Lists, Follows;
    var r := records[t];
    assert Belongs(run, t, r) && Listed(r, activations, run.digest);
    TaskOf(run, t, r);
    if t in a.responses { OneActivated(run, t, r, a.continuation, a.responses[t]); } else { FollowsSelf(r); }
  }

  lemma ActivateGroup(run: Run, records: map<TaskId, Record>, activations: map<ContinuationId, Activation>, c: ContinuationId,
                      responses: map<TaskId, nat>, now: nat)
    requires StoreOk(run, records, activations) && c !in activations && 1 <= |responses| <= MAX_GROUP
    requires forall t :: t in responses ==> Activatable(records, t, responses[t])
    ensures var a := Activation(c, run.invocation, responses, DigestsOf(run, records, responses.Keys), now);
      StoreOk(run, Activated(records, responses.Keys, c), activations[c := a])
    ensures Grows(records, Activated(records, responses.Keys, c))
  {
    hide Belongs, Lists, Listed, Follows, Activated, DigestsOf;
    var next := Activated(records, responses.Keys, c);
    var a := Activation(c, run.invocation, responses, DigestsOf(run, records, responses.Keys), now);
    SameRecords(records, responses.Keys, c);
    forall t | t in records
      ensures Belongs(run, t, next[t]) && Follows(records[t], next[t]) && Listed(next[t], activations[c := a], run.digest)
      ensures t in responses ==> responses[t] == 2
    {
      RecordActivated(run, records, activations, a, t);
    }
    forall t | t in responses ensures t in records && records[t].activation.None? && responses[t] == 2 {
      assert Activatable(records, t, responses[t]);
      RecordActivated(run, records, activations, a, t);
    }
    forall d | d in activations ensures Lists(activations[d], next, run.digest) {
      ListsElsewhere(activations[d], records, responses.Keys, c, run.digest);
    }
    ListsGroup(run, records, c, responses, now);
  }

  lemma SameRecords(records: map<TaskId, Record>, group: set<TaskId>, c: ContinuationId)
    ensures Activated(records, group, c).Keys == records.Keys
  {}

  lemma TaskOf(run: Run, t: TaskId, r: Record)
    requires Belongs(run, t, r)
    ensures r.contents.task == t
  {}

  /** Everything an activation says of its records still holds, so looking again finds no fault. */
  lemma RetryIsClean(run: Run, records: map<TaskId, Record>, activations: map<ContinuationId, Activation>, c: ContinuationId, t: TaskId)
    requires StoreOk(run, records, activations) && c in activations && t in activations[c].digests
    ensures t in records && records[t].activation == Some(c) && (run.digest)(records[t].contents) == activations[c].digests[t]
    ensures activations[c].invocation == run.invocation
  {
    assert Lists(activations[c], records, run.digest);
  }

  /** A record has revision 3 exactly when the activation it names lists it with the digest of its contents. */
  lemma ActivatedExactly(run: Run, records: map<TaskId, Record>, activations: map<ContinuationId, Activation>, t: TaskId)
    requires StoreOk(run, records, activations) && t in records
    ensures records[t].revision == 3 <==> exists c ::
      c in activations && records[t].activation == Some(c) && t in activations[c].digests
      && activations[c].digests[t] == (run.digest)(records[t].contents)
    ensures records[t].revision < 3 ==> forall c :: c in activations ==> t !in activations[c].responses
  {
    var r := records[t];
    assert Belongs(run, t, r) && Listed(r, activations, run.digest);
    if r.revision == 3 { assert r.activation.value in activations; }
    forall c | c in activations && t in activations[c].responses ensures r.revision == 3 {
      assert Lists(activations[c], records, run.digest);
    }
  }

  class AgentInputStore {
    const run: Run
    var cancelled: bool
    var records: map<TaskId, Record>
    var activations: map<ContinuationId, Activation>

    ghost predicate Valid()
      reads this
    {
      StoreOk(run, records, activations)
    }

    constructor (run: Run)
      ensures Valid() && records == map[] && activations == map[] && !cancelled && this.run == run
    {
      this.run, cancelled, records, activations := run, false, map[], map[];
    }

    method Get(t: TaskId) returns (r: Option<Record>)
      requires Valid()
      ensures r == if t in records then Some(records[t]) else None
    {
      r := if t in records then Some(records[t]) else None;
    }

    method Cancel()
      requires Valid()
      modifies this`cancelled
      ensures Valid() && cancelled
    {
      cancelled := true;
    }

    /** Asks once; asking again with the same context returns the record as it is by now. */
    method Request(t: TaskId, context: Bytes, isJson: bool, now: nat) returns (r: Result<Record>)
      requires Valid()
      modifies this`records
      ensures Valid() && Grows(old(records), records)
      ensures r.Ok? <==>
        |context| <= 32000 && isJson && !cancelled && t in run.tasks && (t in old(records) ==> old(records)[t].contents.context == context)
      ensures r.Ok? ==> records == old(records)[t := r.value] && r.value.contents.context == context
      ensures r.Ok? && t in old(records) ==> r.value == old(records)[t]
      ensures r.Ok? && t !in old(records) ==>
        r.value == Record(Contents(t, run.invocation, run.tasks[t].prompt, context, run.tasks[t].maxResponse, None, now, None), 1, None)
      ensures r.Err? ==> records == old(records)
      ensures r.Err? ==> match r.error
        case InvalidContext => |context| > MAX_CONTEXT || !isJson
        case Cancelled => cancelled
        case TaskNotFound => t !in run.tasks
        case RequestConflict => t in records && records[t].contents.context != context
        case _ => false
    {
      hide StoreOk, Belongs, Grows;
      GrowsSame(records);
      if |context| > MAX_CONTEXT || !isJson { return Err(InvalidContext); }
      if cancelled { return Err(Error.Cancelled); }
      if t !in run.tasks { return Err(TaskNotFound); }
      if t in records {
        if records[t].contents.context != context { return Err(RequestConflict); }
        return Ok(records[t]);
      }
      var record := Record(Contents(t, run.invocation, run.tasks[t].prompt, context, run.tasks[t].maxResponse, None, now, None), 1, None);
      assert Belongs(run, t, record) by { NewBelongs(run, t, context, now); }
      PutRecord(run, records, activations, t, record);
      records := records[t := record];
      r := Ok(record);
    }

    /** Answers once. `blank` says that a response has nothing but white space. */
    method Respond(t: TaskId, response: Bytes, blank: bool, expected: nat, now: nat) returns (r: Result<Record>)
      requires Valid()
      modifies this`records
      ensures Valid() && Grows(old(records), records)
      ensures r.Ok? <==>
        expected == 1 && !cancelled && t in old(records) && !blank && |response| <= old(records)[t].contents.maxResponse
        && (old(records)[t].contents.response.Some? ==> old(records)[t].contents.response.value == response)
      ensures r.Ok? ==> records == old(records)[t := r.value] && r.value.contents.response == Some(response) && r.value.revision >= 2
      ensures r.Ok? && old(records)[t].contents.response.Some? ==> r.value == old(records)[t]
      ensures r.Ok? && old(records)[t].contents.response.None? ==>
        r.value == Record(old(records)[t].contents.(response := Some(response), respondedAt := Some(now)), 2, None)
      ensures r.Err? ==> records == old(records)
      ensures r.Err? ==> match r.error
        case InvalidBudget => !(1 <= expected <= 3)
        case Cancelled => cancelled
        case NotFound => t !in records
        case RevisionConflict => 2 <= expected <= 3
        case InvalidResponse => blank || (t in records && |response| > records[t].contents.maxResponse)
        case ResponseConflict => t in records && records[t].contents.response.Some? && records[t].contents.response.value != response
        case _ => false
    {
      hide StoreOk, Grows;
      GrowsSame(records);
      if expected < 1 || expected > 3 { return Err(InvalidBudget); }
      if cancelled { return Err(Error.Cancelled); }
      if t !in records { return Err(NotFound); }
      var prior := records[t];
      RecordBelongs(run, records, activations, t);
      if expected != 1 { return Err(RevisionConflict); }
      if blank || |response| > prior.contents.maxResponse { return Err(InvalidResponse); }
      if prior.contents.response.Some? {
        if prior.contents.response.value != response { return Err(ResponseConflict); }
        return Ok(prior);
      }
      var record := prior.(contents := prior.contents.(response := Some(response), respondedAt := Some(now)), revision := 2);
      PutRecord(run, records, activations, t, record);
      records := records[t := record];
      r := Ok(record);
    }

    /**
     * Activates a group of answers: all of them, or none. Once it has succeeded every retry returns the same receipt,
     * whatever has happened since.
     */
    method Activate(c: ContinuationId, responses: map<TaskId, nat>, now: nat) returns (r: Result<Activation>)
      requires Valid()
      modifies this`records, this`activations
      ensures Valid() && Grows(old(records), records) && Keeps(old(activations), activations)
      ensures r.Err? ==> records == old(records) && activations == old(activations)
      ensures r.Err? ==> match r.error
        case InvalidActivation => !(1 <= |responses| <= MAX_GROUP)
        case InvalidBudget => exists t :: t in responses && !(1 <= responses[t] <= 3)
        case Cancelled => cancelled
        case ActivationConflict =>
          if c in activations then activations[c].responses != responses
          else exists t :: t in responses && t in records && records[t].activation.Some?
        case NotAnswered => c !in activations && exists t :: t in responses && (t !in records || records[t].contents.response.None?)
        case RevisionConflict => c !in activations && exists t :: t in responses && t in records && responses[t] != records[t].revision
        case _ => false
      ensures c in old(activations) ==> records == old(records) && activations == old(activations)
      ensures c in old(activations) ==> (r.Ok? <==> !cancelled && old(activations)[c].responses == responses)
      ensures c in old(activations) && r.Ok? ==> r.value == old(activations)[c]
      ensures c !in old(activations) ==>
        (r.Ok? <==> !cancelled && 1 <= |responses| <= 32 && forall t :: t in responses ==> Activatable(old(records), t, responses[t]))
      ensures r.Ok? && c !in old(activations) ==>
        records == Activated(old(records), responses.Keys, c) && activations == old(activations)[c := r.value]
      ensures r.Ok? && c !in old(activations) ==>
        r.value == Activation(c, run.invocation, responses, DigestsOf(run, old(records), responses.Keys), now)
    {
      hide StoreOk, Grows, Lists, Listed, Belongs, Activated;
      GrowsSame(records);
      if c in activations { GroupSizes(run, records, activations, c); }
      if |responses| < 1 || |responses| > MAX_GROUP { return Err(InvalidActivation); }
      if exists t :: t in responses && !(1 <= responses[t] <= 3) {
        Revisions(run, records, activations, c, responses);
        return Err(InvalidBudget);
      }
      if cancelled { return Err(Error.Cancelled); }
      if c in activations {
        var prior := activations[c];
        forall t | t in prior.digests
          ensures t in records && records[t].activation == Some(c) && (run.digest)(records[t].contents) == prior.digests[t]
        {
          RetryIsClean(run, records, activations, c, t);
        }
        if prior.responses != responses { return Err(ActivationConflict); }
        r := Recheck(prior, c);
        return;
      }
      var failure := Check(responses);
      if failure.Some? { return Err(failure.value); }
      var activation := Activation(c, run.invocation, responses, DigestsOf(run, records, responses.Keys), now);
      ActivateGroup(run, records, activations, c, responses, now);
      Mark(responses.Keys, c);
      activations := activations[c := activation];
      r := Ok(activation);
    }

    /** The check a retry makes of the receipt it finds. */
    method Recheck(prior: Activation, c: ContinuationId) returns (r: Result<Activation>)
      requires forall t :: t in prior.digests ==>
        t in records && records[t].activation == Some(c) && (run.digest)(records[t].contents) == prior.digests[t]
      ensures r == Ok(prior)
    {
      var rest := prior.digests.Keys;
      while rest != {}
        invariant rest <= prior.digests.Keys
        decreases |rest|
      {
        var t :| t in rest;
        if t !in records || records[t].activation != Some(c) || (run.digest)(records[t].contents) != prior.digests[t] { return Err(Integrity); }
        rest := rest - {t};
      }
      r := Ok(prior);
    }

    method Check(responses: map<TaskId, nat>) returns (failure: Option<Error>)
      ensures failure.None? <==> forall t :: t in responses ==> Activatable(records, t, responses[t])
      ensures failure.Some? ==> match failure.value
        case NotAnswered => exists t :: t in responses && (t !in records || records[t].contents.response.None?)
        case ActivationConflict => exists t :: t in responses && t in records && records[t].activation.Some?
        case RevisionConflict => exists t :: t in responses && t in records && responses[t] != records[t].revision
        case _ => false
    {
      var rest := responses.Keys;
      while rest != {}
        invariant rest <= responses.Keys && forall t :: t in responses && t !in rest ==> Activatable(records, t, responses[t])
        decreases |rest|
      {
        var t :| t in rest;
        if t !in records || records[t].contents.response.None? { return Some(NotAnswered); }
        if records[t].activation.Some? { return Some(ActivationConflict); }
        if responses[t] != records[t].revision { return Some(RevisionConflict); }
        rest := rest - {t};
      }
      failure := None;
    }

    method Mark(group: set<TaskId>, c: ContinuationId)
      requires group <= records.Keys
      modifies this`records
      ensures records == Activated(old(records), group, c)
    {
      hide Activated;
      var rest := group;
      MarkNone(records, c);
      assert group - rest == {};
      while rest != {}
        invariant rest <= group && records == Activated(old(records), group - rest, c)
        decreases |rest|
      {
        var t :| t in rest;
        assert group - (rest - {t}) == (group - rest) + {t};
        MarkOne(old(records), group - rest, c, t);
        records := records[t := records[t].(revision := 3, activation := Some(c))];
        rest := rest - {t};
      }
      assert group - {} == group;
    }
  }

  lemma MarkNone(records: map<TaskId, Record>, c: ContinuationId)
    ensures Activated(records, {}, c) == records
  {}

  lemma MarkOne(records: map<TaskId, Record>, group: set<TaskId>, c: ContinuationId, t: TaskId)
    requires t in records && t !in group
    ensures t in Activated(records, group, c)
    ensures Activated(records, group + {t}, c) ==
      Activated(records, group, c)[t := Activated(records, group, c)[t].(revision := 3, activation := Some(c))]
  {}

  lemma NewBelongs(run: Run, t: TaskId, context: Bytes, now: nat)
    requires t in run.tasks && |context| <= MAX_CONTEXT
    ensures Belongs(run, t, Record(Contents(t, run.invocation, run.tasks[t].prompt, context, run.tasks[t].maxResponse, None, now, None), 1, None))
  {}

  lemma RecordBelongs(run: Run, records: map<TaskId, Record>, activations: map<ContinuationId, Activation>, t: TaskId)
    requires StoreOk(run, records, activations) && t in records
    ensures Belongs(run, t, records[t]) && (records[t].contents.response.None? ==> records[t].activation.None?)
  {}

  lemma GroupSizes(run: Run, records: map<TaskId, Record>, activations: map<ContinuationId, Activation>, c: ContinuationId)
    requires StoreOk(run, records, activations) && c in activations
    ensures 1 <= |activations[c].responses| <= MAX_GROUP
  {
    assert Lists(activations[c], records, run.digest);
  }

  lemma Revisions(run: Run, records: map<TaskId, Record>, activations: map<ContinuationId, Activation>, c: ContinuationId, responses: map<TaskId, nat>)
    requires StoreOk(run, records, activations) && exists t :: t in responses && !(1 <= responses[t] <= 3)
    ensures c in activations ==> activations[c].responses != responses
    ensures exists t :: t in responses && !Activatable(records, t, responses[t])
  {
    var t :| t in responses && !(1 <= responses[t] <= 3);
    if c in activations { assert Lists(activations[c], records, run.digest); }
    if t in records { assert Belongs(run, t, records[t]); }
    assert !Activatable(records, t, responses[t]);
  }
}
