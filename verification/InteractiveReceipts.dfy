/**
 * Receipts of an interactive workflow: a human receipt is tied to an activated
 * record of the input store and to the results it was asked with. Once
 * committed it passes every later verification, whatever other requests,
 * answers, activations and results come after it.
 */
module InteractiveReceipts {
  import opened Prelude
  import opened InputStore

  datatype Receipt =
    | ModelReceipt(task: TaskId, agent: nat, model: nat, binding: nat, dependsOn: seq<TaskId>, text: Bytes, retained: bool, evidence: seq<nat>)
    | HumanReceipt(task: TaskId, dependsOn: seq<TaskId>, text: Bytes, activation: ContinuationId, digest: nat)

  datatype Node = ModelNode(dependsOn: seq<TaskId>, agent: nat, model: nat, binding: nat) | HumanNode(dependsOn: seq<TaskId>)

  /** What one dependency contributes to the context of a step. */
  datatype Part = HumanPart(task: TaskId, text: Bytes) | ModelPart(task: TaskId, agent: nat, text: Bytes, retained: bool, evidence: seq<nat>)

  /** A plan, and how contexts and responses are encoded. */
  datatype Plan = Plan(nodes: map<TaskId, Node>, encode: seq<Part> -> Bytes, digest: Contents -> nat)

  function PartOf(name: TaskId, r: Receipt): Part
  {
    if r.HumanReceipt? then HumanPart(name, r.text) else ModelPart(name, r.agent, r.text, r.retained, r.evidence)
  }

  predicate Has(deps: seq<TaskId>, receipts: map<TaskId, Receipt>) { forall d :: d in deps ==> d in receipts }

  function Parts(deps: seq<TaskId>, receipts: map<TaskId, Receipt>): seq<Part>
    requires Has(deps, receipts)
  {
    if deps == [] then [] else
      assert Has(deps[1..], receipts);
      [PartOf(deps[0], receipts[deps[0]])] + Parts(deps[1..], receipts)
  }

  /** A context has one part for each dependency, in order: what a person answered, or what an agent said and on which evidence. */
  lemma {:induction false} PartsAre(deps: seq<TaskId>, receipts: map<TaskId, Receipt>, i: nat)
    requires Has(deps, receipts) && i < |deps|
    ensures |Parts(deps, receipts)| == |deps| && deps[i] in receipts
    ensures match receipts[deps[i]]
      case HumanReceipt(_, _, text, _, _) => Parts(deps, receipts)[i] == HumanPart(deps[i], text)
      case ModelReceipt(_, agent, _, _, _, text, retained, evidence) =>
        Parts(deps, receipts)[i] == ModelPart(deps[i], agent, text, retained, evidence)
  {
    assert deps[i] in deps && forall d :: d in deps[1..] ==> d in deps;
    if |deps| > 1 { PartsAre(deps[1..], receipts, if i > 0 then i - 1 else 0); }
  }

  function ContextOf(p: Plan, deps: seq<TaskId>, receipts: map<TaskId, Receipt>): Bytes
    requires Has(deps, receipts)
  {
    (p.encode)(Parts(deps, receipts))
  }

  /** The receipt of an activated record. */
  function ReceiptOf(p: Plan, deps: seq<TaskId>, r: Record): Option<Receipt>
  {
    if r.contents.response.None? || r.activation.None? then None
    else Some(HumanReceipt(r.contents.task, deps, r.contents.response.value, r.activation.value, (p.digest)(r.contents)))
  }

  /** What the verification of one saved result requires. */
  ghost predicate Bound(p: Plan, name: TaskId, value: Receipt, receipts: map<TaskId, Receipt>, records: map<TaskId, Record>)
  {
    && name in p.nodes && Has(p.nodes[name].dependsOn, receipts)
    && match p.nodes[name]
       case HumanNode(deps) =>
         && name in records && ReceiptOf(p, deps, records[name]) == Some(value)
         && |ContextOf(p, deps, receipts)| <= MAX_CONTEXT && records[name].contents.context == ContextOf(p, deps, receipts)
       case ModelNode(deps, agent, model, binding) =>
         value.ModelReceipt? && value.task == name && value.agent == agent && value.model == model && value.binding == binding
         && value.dependsOn == deps
  }

  /** A human receipt says which input was answered, after which results, with what, and by which activation. */
  ghost predicate Answers(p: Plan, name: TaskId, value: Receipt, r: Record)
  {
    && name in p.nodes && value.HumanReceipt? && value.task == name && value.dependsOn == p.nodes[name].dependsOn
    && r.contents.response == Some(value.text) && r.activation == Some(value.activation) && value.digest == (p.digest)(r.contents)
  }

  lemma BoundAnswers(p: Plan, run: Run, name: TaskId, value: Receipt, receipts: map<TaskId, Receipt>, records: map<TaskId, Record>,
                     activations: map<ContinuationId, Activation>)
    requires Bound(p, name, value, receipts, records) && StoreOk(run, records, activations) && p.nodes[name].HumanNode?
    ensures name in records && Answers(p, name, value, records[name])
  {
    assert Belongs(run, name, records[name]);
  }

  ghost predicate Verified(p: Plan, receipts: map<TaskId, Receipt>, records: map<TaskId, Record>)
  {
    forall name :: name in receipts ==> Bound(p, name, receipts[name], receipts, records)
  }

  lemma {:induction false} SameParts(deps: seq<TaskId>, x: map<TaskId, Receipt>, y: map<TaskId, Receipt>)
    requires Has(deps, x) && Keeps(x, y)
    ensures Has(deps, y) && Parts(deps, y) == Parts(deps, x)
  {
    if deps != [] {
      assert deps[0] in deps && forall d :: d in deps[1..] ==> d in deps;
      SameParts(deps[1..], x, y);
    }
  }

  /** More results, and whatever else happens to the records, leave a bound result bound. */
  lemma BoundStays(p: Plan, run: Run, name: TaskId, value: Receipt, x: map<TaskId, Receipt>, y: map<TaskId, Receipt>,
                   before: map<TaskId, Record>, after: map<TaskId, Record>, activations: map<ContinuationId, Activation>)
    requires Bound(p, name, value, x, before) && Keeps(x, y) && Grows(before, after) && StoreOk(run, before, activations)
    ensures Bound(p, name, value, y, after)
  {
    hide Listed, Lists;
    var deps := p.nodes[name].dependsOn;
    SameParts(deps, x, y);
    if p.nodes[name].HumanNode? {
      assert Belongs(run, name, before[name]) && Follows(before[name], after[name]);
      assert before[name].revision == 3;
    }
  }

  /** Committed receipts never fail verification again: results are only added, and activated records never change. */
  lemma VerifiedStays(p: Plan, run: Run, receipts: map<TaskId, Receipt>, before: map<TaskId, Record>, after: map<TaskId, Record>,
                      activations: map<ContinuationId, Activation>)
    requires Verified(p, receipts, before) && Grows(before, after) && StoreOk(run, before, activations)
    ensures Verified(p, receipts, after)
  {
    hide Bound, StoreOk, Grows;
    forall name | name in receipts ensures Bound(p, name, receipts[name], receipts, after) {
      BoundStays(p, run, name, receipts[name], receipts, receipts, before, after, activations);
    }
  }

  /** Committing one more bound result keeps everything verified. */
  lemma VerifiedMore(p: Plan, run: Run, receipts: map<TaskId, Receipt>, records: map<TaskId, Record>,
                     activations: map<ContinuationId, Activation>, name: TaskId, value: Receipt)
    requires Verified(p, receipts, records) && StoreOk(run, records, activations) && name !in receipts
    requires Bound(p, name, value, receipts, records)
    ensures Verified(p, receipts[name := value], records)
  {
    hide Bound, StoreOk, Grows;
    var more := receipts[name := value];
    GrowsSame(records);
    forall n | n in more ensures Bound(p, n, more[n], more, records) {
      BoundStays(p, run, n, more[n], receipts, more, records, records, activations);
    }
  }

  /** The verification of a run's saved results: every receipt is rebuilt, and then every context. */
  method Receipts(p: Plan, completed: map<TaskId, Receipt>, store: AgentInputStore) returns (valid: bool)
    requires store.Valid()
    ensures valid <==> Verified(p, completed, store.records)
    ensures valid ==> forall name :: name in completed && name in p.nodes && p.nodes[name].HumanNode? ==>
      name in store.records && Answers(p, name, completed[name], store.records[name])
  {
    forall name | name in completed && name in p.nodes && p.nodes[name].HumanNode? && Bound(p, name, completed[name], completed, store.records)
      ensures name in store.records && Answers(p, name, completed[name], store.records[name])
    {
      BoundAnswers(p, store.run, name, completed[name], completed, store.records, store.activations);
    }
    hide StoreOk, Answers;
    var rest := completed.Keys;
    while rest != {}
      invariant rest <= completed.Keys && forall name :: name in completed && name !in rest ==> Named(p, name, completed, store.records)
      decreases |rest|
    {
      var name :| name in rest;
      if name !in p.nodes || !Has(p.nodes[name].dependsOn, completed) { return false; }
      match p.nodes[name] {
        case HumanNode(deps) =>
          var record := store.Get(name);
          if record.None? || ReceiptOf(p, deps, record.value) != Some(completed[name]) { return false; }
        case ModelNode(deps, agent, model, binding) =>
          var value := completed[name];
          if !value.ModelReceipt? || value.task != name || value.agent != agent || value.model != model || value.binding != binding
             || value.dependsOn != deps
          {
            return false;
          }
      }
      rest := rest - {name};
    }
    rest := completed.Keys;
    while rest != {}
      invariant rest <= completed.Keys
      invariant forall name :: name in completed ==> Named(p, name, completed, store.records)
      invariant forall name :: name in completed && name !in rest ==> Bound(p, name, completed[name], completed, store.records)
      decreases |rest|
    {
      var name :| name in rest;
      assert Named(p, name, completed, store.records);
      if p.nodes[name].HumanNode? {
        var record := store.Get(name);
        var context := ContextOf(p, p.nodes[name].dependsOn, completed);
        if record.None? || |context| > MAX_CONTEXT || record.value.contents.context != context { return false; }
      }
      rest := rest - {name};
    }
    valid := true;
  }

  /** The first half of a receipt's verification: its own fields. */
  ghost predicate Named(p: Plan, name: TaskId, receipts: map<TaskId, Receipt>, records: map<TaskId, Record>)
    requires name in receipts
  {
    && name in p.nodes && Has(p.nodes[name].dependsOn, receipts)
    && match p.nodes[name]
       case HumanNode(deps) => name in records && ReceiptOf(p, deps, records[name]) == Some(receipts[name])
       case ModelNode(deps, agent, model, binding) =>
         receipts[name].ModelReceipt? && receipts[name].task == name && receipts[name].agent == agent && receipts[name].model == model
         && receipts[name].binding == binding && receipts[name].dependsOn == deps
  }

  datatype Answer = Pending | Given(value: Receipt) | Failed

  /** The store takes the question: it fits, the run is not cancelled, and it is not a different one than before. */
  ghost predicate Askable(p: Plan, records: map<TaskId, Record>, store: AgentInputStore, t: TaskId, completed: map<TaskId, Receipt>)
    reads store
    requires t in p.nodes && Has(p.nodes[t].dependsOn, completed)
  {
    var context := ContextOf(p, p.nodes[t].dependsOn, completed);
    && |context| <= MAX_CONTEXT && !store.cancelled && t in store.run.tasks
    && (t in records ==> records[t].contents.context == context)
  }

  /**
   * Asks for one input. `activated` are the activated records the run was admitted with; only those unlock it.
   * A value that is given can be committed: all results, with it, verify.
   */
  method Poll(p: Plan, store: AgentInputStore, activated: map<TaskId, Record>, completed: map<TaskId, Receipt>, t: TaskId, now: nat)
    returns (answer: Answer)
    requires store.Valid() && p.digest == store.run.digest && t in p.nodes && p.nodes[t].HumanNode? && t !in completed
    requires Has(p.nodes[t].dependsOn, completed)
    modifies store
    ensures store.Valid() && Grows(old(store.records), store.records) && store.activations == old(store.activations)
    ensures answer.Given? ==> t in activated && t in store.records && activated[t] == store.records[t]
    ensures answer.Given? ==> Verified(p, completed, store.records) && Verified(p, completed[t := answer.value], store.records)
    ensures answer.Given? ==> Answers(p, t, answer.value, store.records[t])
    ensures answer.Pending? ==> t !in activated && t in store.records
    ensures answer.Failed? <==>
      !(Verified(p, completed, old(store.records)) && Askable(p, old(store.records), store, t, completed)
        && (t in activated ==> t in store.records && activated[t] == store.records[t] && activated[t].revision == 3))
  {
    GrowsSame(store.records);
    var valid := Receipts(p, completed, store);
    if !valid { return Failed; }
    var context := ContextOf(p, p.nodes[t].dependsOn, completed);
    if |context| > MAX_CONTEXT { return Failed; }
    ghost var before := store.records;
    hide Verified, Grows, StoreOk, Bound;
    var record := store.Request(t, context, true, now);
    if record.Err? { return Failed; }
    VerifiedStays(p, store.run, completed, before, store.records, store.activations);
    if t !in activated { return Pending; }
    if activated[t] != record.value { return Failed; }
    ActivatedRecord(store.run, store.records, store.activations, t);
    var receipt := ReceiptOf(p, p.nodes[t].dependsOn, record.value);
    if receipt.None? { return Failed; }
    assert Bound(p, t, receipt.value, completed, store.records) by {
      GivenBound(p, t, receipt.value, completed, store.records);
    }
    BoundAnswers(p, store.run, t, receipt.value, completed, store.records, store.activations);
    VerifiedMore(p, store.run, completed, store.records, store.activations, t, receipt.value);
    answer := Given(receipt.value);
  }

  lemma ActivatedRecord(run: Run, records: map<TaskId, Record>, activations: map<ContinuationId, Activation>, t: TaskId)
    requires StoreOk(run, records, activations) && t in records
    ensures records[t].revision == 3 <==> records[t].contents.response.Some? && records[t].activation.Some?
  {
    assert Belongs(run, t, records[t]);
  }

  lemma GivenBound(p: Plan, t: TaskId, value: Receipt, receipts: map<TaskId, Receipt>, records: map<TaskId, Record>)
    requires t in p.nodes && p.nodes[t].HumanNode? && Has(p.nodes[t].dependsOn, receipts) && t in records
    requires ReceiptOf(p, p.nodes[t].dependsOn, records[t]) == Some(value)
    requires |ContextOf(p, p.nodes[t].dependsOn, receipts)| <= MAX_CONTEXT
    requires records[t].contents.context == ContextOf(p, p.nodes[t].dependsOn, receipts)
    ensures Bound(p, t, value, receipts, records)
  {}
}
