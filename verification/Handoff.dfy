/**
 * Delegation between agents: a run is a walk in the permission graph from the
 * root agent. The service rebuilds the walk from saved hops, the workflow stops
 * it at the first hop that hands off to nobody, and the client, which shares no
 * code with the service, accepts exactly the results the service can produce.
 */
module Handoff {
  import opened Prelude
  import WorkflowTypes
  import Workflow

  type Agent = nat

  const MAX_PACKETS := 128

  datatype Policy = Policy(targets: set<Agent>, model: nat, binding: nat)
  datatype Plan = Plan(root: Agent, policies: map<Agent, Policy>, maxHandoffs: nat)

  /** Hop numbers count from one; a hop depends on the one before it. */
  datatype Output = Output(task: nat, agent: Agent, model: nat, binding: nat, dependsOn: seq<nat>, text: nat, packets: nat)
  datatype Hop = Hop(output: Output, to: Option<Agent>)

  // ----- Walks -----

  /** Who has to make hop `i`. */
  function Holder(p: Plan, hops: seq<Hop>, i: nat): Option<Agent>
    requires i <= |hops|
  {
    if i == 0 then Some(p.root) else hops[i - 1].to
  }

  function DependsOn(i: nat): seq<nat> { if i == 0 then [] else [i] }

  predicate HopOk(p: Plan, current: Option<Agent>, hop: Hop, i: nat)
  {
    && current.Some? && current.value in p.policies
    && hop.output.task == i + 1 && hop.output.agent == current.value && hop.output.model == p.policies[current.value].model
    && hop.output.binding == p.policies[current.value].binding && hop.output.dependsOn == DependsOn(i)
    && (hop.to.Some? ==> hop.to.value in p.policies[current.value].targets)
  }

  /** Every hop is made by the agent the hop before handed off to, which was permitted. */
  ghost predicate IsWalk(p: Plan, hops: seq<Hop>)
  {
    forall i :: 0 <= i < |hops| ==> HopOk(p, Holder(p, hops, i), hops[i], i)
  }

  /**
   * The agents of a walk follow permitted edges from the root, only the last hop can hand off to nobody, and each hop is
   * numbered, tied to the hop before it, and made by its agent's own model and binding.
   */
  lemma WalkIsPath(p: Plan, hops: seq<Hop>, i: nat)
    requires IsWalk(p, hops) && i < |hops|
    ensures i == 0 ==> hops[i].output.agent == p.root
    ensures i > 0 ==> hops[i - 1].to == Some(hops[i].output.agent) && hops[i].output.agent in p.policies[hops[i - 1].output.agent].targets
    ensures i < |hops| - 1 ==> hops[i].to.Some?
    ensures hops[i].output.agent in p.policies
    ensures var policy, output := p.policies[hops[i].output.agent], hops[i].output;
      && output.task == HopId(i) && output.model == policy.model && output.binding == policy.binding
      && output.dependsOn == (if i == 0 then [] else [hops[i - 1].output.task])
      && (hops[i].to.Some? ==> hops[i].to.value in policy.targets)
  {
    assert HopOk(p, Holder(p, hops, i), hops[i], i);
    if i > 0 { assert HopOk(p, Holder(p, hops, i - 1), hops[i - 1], i - 1); }
    if i < |hops| - 1 { assert HopOk(p, Holder(p, hops, i + 1), hops[i + 1], i + 1); }
  }

  /** Hop `i` is the root's, or permitted to whom the hop before handed off to; it is tied to that hop, and to its agent. */
  ghost predicate Continues(p: Plan, hops: seq<Hop>, i: nat)
    requires i < |hops|
  {
    var output := hops[i].output;
    && (if i == 0 then output.agent == p.root && output.dependsOn == []
        else hops[i - 1].to == Some(output.agent) && output.dependsOn == [hops[i - 1].output.task])
    && output.agent in p.policies && output.task == HopId(i)
    && output.model == p.policies[output.agent].model && output.binding == p.policies[output.agent].binding
    && (hops[i].to.Some? ==> hops[i].to.value in p.policies[output.agent].targets)
  }

  /** And nothing else is asked of a walk. */
  lemma PathIsWalk(p: Plan, hops: seq<Hop>)
    ensures IsWalk(p, hops) <==> forall i :: 0 <= i < |hops| ==> Continues(p, hops, i)
  {
    if IsWalk(p, hops) {
      forall i | 0 <= i < |hops| ensures Continues(p, hops, i) { WalkIsPath(p, hops, i); }
    }
    if forall i :: 0 <= i < |hops| ==> Continues(p, hops, i) {
      forall i | 0 <= i < |hops| ensures HopOk(p, Holder(p, hops, i), hops[i], i) {
        assert Continues(p, hops, i) && (i > 0 ==> Continues(p, hops, i - 1));
      }
    }
  }

  lemma WalkMore(p: Plan, hops: seq<Hop>, hop: Hop)
    requires IsWalk(p, hops) && HopOk(p, Holder(p, hops, |hops|), hop, |hops|)
    ensures IsWalk(p, hops + [hop])
  {
    var more := hops + [hop];
    forall i | 0 <= i < |more| ensures HopOk(p, Holder(p, more, i), more[i], i) {
      if i < |hops| { assert HopOk(p, Holder(p, hops, i), hops[i], i) && Holder(p, more, i) == Holder(p, hops, i); }
    }
  }


  // ----- The service -----

  /** The step that hop `i` is saved under. */
  function HopId(i: nat): nat { i + 1 }

  function HopIds(n: nat): set<nat> { set i | 0 <= i < n :: HopId(i) }

  predicate IsNumbered(completed: map<nat, Hop>) { forall i :: 0 <= i < |completed| ==> HopId(i) in completed }

  function Chain(completed: map<nat, Hop>): (hops: seq<Hop>)
    requires IsNumbered(completed)
    ensures |hops| == |completed|
  {
    seq(|completed|, i requires 0 <= i < |completed| => completed[HopId(i)])
  }

  /** The walk that saved results stand for, if they stand for one. */
  ghost function ReceiptsOf(p: Plan, completed: map<nat, Hop>): Option<seq<Hop>>
  {
    if |completed| <= p.maxHandoffs + 1 && IsNumbered(completed) && IsWalk(p, Chain(completed)) then Some(Chain(completed)) else None
  }

  method Receipts(p: Plan, completed: map<nat, Hop>) returns (receipts: Option<seq<Hop>>)
    ensures receipts == ReceiptsOf(p, completed)
  {
    hide HopOk, IsWalk;
    if |completed| > p.maxHandoffs + 1 { return None; }
    var current, hops: seq<Hop> := Some(p.root), [];
    assert IsWalk(p, []) by { NoHops(p); }
    for index := 0 to |completed|
      invariant |hops| == index && current == Holder(p, hops, index) && IsWalk(p, hops)
      invariant forall i :: 0 <= i < index ==> HopId(i) in completed && hops[i] == completed[HopId(i)]
    {
      if HopId(index) !in completed { return None; }
      var hop := completed[HopId(index)];
      if !HopOk(p, current, hop, index) {
        if IsNumbered(completed) { WrongHop(p, hops, Chain(completed), index); }
        return None;
      }
      WalkMore(p, hops, hop);
      hops := hops + [hop];
      current := hop.to;
    }
    assert IsNumbered(completed) && Chain(completed) == hops;
    receipts := Some(hops);
  }

  lemma NoHops(p: Plan)
    ensures IsWalk(p, [])
  {}

  lemma WrongHop(p: Plan, prefix: seq<Hop>, hops: seq<Hop>, index: nat)
    requires index < |hops| && |prefix| == index && forall i :: 0 <= i < index ==> prefix[i] == hops[i]
    requires !HopOk(p, Holder(p, prefix, index), hops[index], index)
    ensures !IsWalk(p, hops)
  {
    hide HopOk;
    assert Holder(p, hops, index) == Holder(p, prefix, index);
  }

  /** The completion condition; None is the exception it raises on results that are no walk. */
  ghost function FinishedOf(p: Plan, completed: map<nat, Hop>): Option<bool>
  {
    var receipts := ReceiptsOf(p, completed);
    if receipts.None? then None else Some(receipts.value != [] && receipts.value[|receipts.value| - 1].to.None?)
  }

  /** What the model of hop `index` may be told to record: the walk goes on, one hop further. */
  method NextHop(p: Plan, completed: map<nat, Hop>, index: nat, text: nat, to: Option<Agent>, packets: nat) returns (hop: Option<Hop>)
    requires index <= p.maxHandoffs
    ensures hop.Some? <==>
      && ReceiptsOf(p, completed).Some? && |completed| == index && Holder(p, ReceiptsOf(p, completed).value, index).Some?
      && var current := Holder(p, ReceiptsOf(p, completed).value, index).value;
      current in p.policies && (to.Some? ==> to.value in p.policies[current].targets)
    ensures hop.Some? ==> hop.value.to == to && hop.value.output.text == text && hop.value.output.packets == packets
    ensures hop.Some? ==> ReceiptsOf(p, completed[HopId(index) := hop.value]) == Some(ReceiptsOf(p, completed).value + [hop.value])
  {
    var receipts := Receipts(p, completed);
    if receipts.None? || |receipts.value| != index { return None; }
    var hops := receipts.value;
    var current := if hops == [] then Some(p.root) else hops[|hops| - 1].to;
    if current.None? || current.value !in p.policies { return None; }
    var policy := p.policies[current.value];
    if to.Some? && to.value !in policy.targets { return None; }
    var next := Hop(Output(HopId(index), current.value, policy.model, policy.binding, DependsOn(index), text, packets), to);
    WalkMore(p, hops, next);
    OneMoreHop(p, completed, index, next);
    hop := Some(next);
  }

  lemma OneMoreHop(p: Plan, completed: map<nat, Hop>, index: nat, hop: Hop)
    requires IsNumbered(completed) && |completed| == index
    ensures var more := completed[HopId(index) := hop]; IsNumbered(more) && Chain(more) == Chain(completed) + [hop]
  {
    var more := completed[HopId(index) := hop];
    NumberedKeys(completed);
    OneMoreId(completed, index, hop);
    forall i | 0 <= i < |more| ensures HopId(i) in more && (i < index ==> more[HopId(i)] == completed[HopId(i)]) {}
  }

  lemma OneMoreId(completed: map<nat, Hop>, index: nat, hop: Hop)
    requires HopId(index) !in completed
    ensures |completed[HopId(index) := hop]| == |completed| + 1
  {
    assert completed[HopId(index) := hop].Keys == completed.Keys + {HopId(index)};
  }

  /** Numbered results have no key but their numbers. */
  lemma NumberedKeys(completed: map<nat, Hop>)
    requires IsNumbered(completed)
    ensures HopId(|completed|) !in completed
  {
    var n := |completed|;
    CountIds(n + 1);
    assert |completed.Keys| == n;
    if HopId(n) in completed {
      forall id | id in HopIds(n + 1) ensures id in completed.Keys {}
      SubsetSize(HopIds(n + 1), completed.Keys);
    }
  }

  lemma {:induction false} CountIds(n: nat)
    ensures |HopIds(n)| == n
  {
    if n > 0 {
      CountIds(n - 1);
      assert HopIds(n) == HopIds(n - 1) + {HopId(n - 1)} && HopId(n - 1) !in HopIds(n - 1);
    }
  }

  datatype Ending = Final | Limit
  datatype Result = Result(ending: Ending, final: Option<Output>, hops: seq<Hop>)

  /** A walk with its outcome: an answer when the last hop hands off to nobody, or the limit without one. */
  ghost predicate IsOutcome(p: Plan, r: Result)
  {
    && r.hops != [] && |r.hops| <= p.maxHandoffs + 1 && IsWalk(p, r.hops)
    && if r.hops[|r.hops| - 1].to.None? then r.ending == Final && r.final == Some(r.hops[|r.hops| - 1].output)
       else r.ending == Limit && r.final == None && |r.hops| == p.maxHandoffs + 1
  }

  method ResultOf(p: Plan, completed: map<nat, Hop>) returns (r: Option<Result>)
    ensures r.Some? ==> IsOutcome(p, r.value) && ReceiptsOf(p, completed) == Some(r.value.hops)
    ensures r.None? <==>
      ReceiptsOf(p, completed).None? || |completed| == 0 || (FinishedOf(p, completed) == Some(false) && |completed| != p.maxHandoffs + 1)
  {
    var receipts := Receipts(p, completed);
    if receipts.None? || receipts.value == [] { return None; }
    var hops := receipts.value;
    var finished := hops[|hops| - 1].to.None?;
    if !finished && |hops| != p.maxHandoffs + 1 { return None; }
    r := Some(Result(if finished then Final else Limit, if finished then Some(hops[|hops| - 1].output) else None, hops));
  }

  // ----- The client -----

  datatype Row = Row(result: Result, reused: seq<nat>)

  function Packets(hops: seq<Hop>): nat
  {
    if hops == [] then 0 else Packets(hops[..|hops| - 1]) + hops[|hops| - 1].output.packets
  }

  /** The independent reader of a served result. */
  method Parse(p: Plan, row: Row) returns (accepted: bool)
    ensures accepted <==>
      IsOutcome(p, row.result) && Packets(row.result.hops) <= 128 && forall t :: t in row.reused ==> 1 <= t <= |row.result.hops|
  {
    hide HopOk, IsWalk;
    var raw := row.result.hops;
    if |raw| > p.maxHandoffs + 1 || raw == [] { return false; }
    var current, packets := Some(p.root), 0;
    assert IsWalk(p, raw[..0]) by { NoHops(p); assert raw[..0] == []; }
    for index := 0 to |raw|
      invariant current == Holder(p, raw, index) && IsWalk(p, raw[..index]) && packets == Packets(raw[..index])
    {
      ghost var prefix := raw[..index];
      assert raw[..index + 1] == prefix + [raw[index]] && Holder(p, prefix, index) == Holder(p, raw, index);
      if !HopOk(p, current, raw[index], index) {
        WrongHop(p, prefix, raw, index);
        return false;
      }
      WalkMore(p, prefix, raw[index]);
      MorePackets(prefix, raw[index]);
      packets := packets + raw[index].output.packets;
      current := raw[index].to;
    }
    assert raw[..|raw|] == raw;
    if (exists t :: t in row.reused && !(1 <= t <= |raw|)) || packets > MAX_PACKETS { return false; }
    if current.None? {
      accepted := row.result.final == Some(raw[|raw| - 1].output) && row.result.ending == Final;
    } else {
      accepted := row.result.ending == Limit && |raw| == p.maxHandoffs + 1 && row.result.final.None?;
    }
  }

  lemma MorePackets(hops: seq<Hop>, hop: Hop)
    ensures Packets(hops + [hop]) == Packets(hops) + hop.output.packets
  {
    assert (hops + [hop])[..|hops|] == hops;
  }

  /** Hops as the service saves them. */
  function Numbered(hops: seq<Hop>): map<nat, Hop>
  {
    if hops == [] then map[] else Numbered(hops[..|hops| - 1])[HopId(|hops| - 1) := hops[|hops| - 1]]
  }

  lemma {:induction false} NumberedChain(p: Plan, hops: seq<Hop>)
    ensures IsNumbered(Numbered(hops)) && |Numbered(hops)| == |hops| && Chain(Numbered(hops)) == hops
    decreases |hops|
  {
    if hops != [] {
      var rest := hops[..|hops| - 1];
      NumberedChain(p, rest);
      OneMoreHop(p, Numbered(rest), |rest|, hops[|hops| - 1]);
      assert rest + [hops[|hops| - 1]] == hops;
    }
  }

  /** Any outcome is one that some saved results give: the client accepts nothing the service could not have served. */
  lemma OutcomeIsServed(p: Plan, r: Result)
    requires IsOutcome(p, r)
    ensures ReceiptsOf(p, Numbered(r.hops)) == Some(r.hops) && FinishedOf(p, Numbered(r.hops)) == Some(r.ending == Final)
  {
    NumberedChain(p, r.hops);
  }

  // ----- The workflow -----

  function Decode(decode: nat -> Hop, results: map<nat, nat>): map<nat, Hop> { map id | id in results :: decode(results[id]) }

  /** The workflow of a plan: one step a hop, stopped by the completion condition, with results that only verify as a walk. */
  ghost predicate Runs(cfg: Workflow.Config, p: Plan, decode: nat -> Hop)
  {
    && Workflow.WellFormed(cfg) && |cfg.steps| == p.maxHandoffs + 1 && (forall i :: 0 <= i < |cfg.steps| ==> cfg.steps[i].id == HopId(i))
    && cfg.completion.Some? && (forall results :: (cfg.completion.value)(results) == FinishedOf(p, Decode(decode, results)))
    && forall results :: cfg.admits(results) ==> ReceiptsOf(p, Decode(decode, results)).Some?
  }

  /**
   * Every completed run has an outcome. One that stopped before the last step allowed stopped at its first hop to nobody.
   */
  lemma CompletedIsOutcome(cfg: Workflow.Config, p: Plan, decode: nat -> Hop, row: WorkflowTypes.State, log: seq<WorkflowTypes.State>,
                           starts: seq<nat>, made: map<nat, nat>, x: nat)
    requires Runs(cfg, p, decode) && Workflow.Kept(cfg, row, log, starts, made) && x < |log| && log[x].status == WorkflowTypes.Completed
    ensures var completed := Decode(decode, log[x].results);
      && 1 <= |completed| <= p.maxHandoffs + 1
      && (|completed| <= p.maxHandoffs ==> FinishedOf(p, completed) == Some(true))
      && exists r :: IsOutcome(p, r) && ReceiptsOf(p, completed) == Some(r.hops)
  {
    hide Workflow.Kept, Workflow.StateOk, Workflow.WellFormed, IsWalk;
    var results, completed := log[x].results, Decode(decode, log[x].results);
    Workflow.FirstCompletion(cfg, row, log, starts, made, x, |results|);
    assert completed.Keys == results.Keys && |completed| == |completed.Keys| && |results| == |results.Keys|;
    if |results| < |cfg.steps| {
      assert Workflow.Restrict(cfg, results, |results|) == results by { WholeResults(cfg, row, log, starts, made, x); }
      NothingFinished(p, decode);
    }
    Admitted(cfg, row, log, starts, made, x);
    var hops := ReceiptsOf(p, completed).value;
    var last := hops[|hops| - 1];
    var r := Result(if last.to.None? then Final else Limit, if last.to.None? then Some(last.output) else None, hops);
    assert IsOutcome(p, r);
  }

  lemma Admitted(cfg: Workflow.Config, row: WorkflowTypes.State, log: seq<WorkflowTypes.State>, starts: seq<nat>, made: map<nat, nat>, x: nat)
    requires Workflow.Kept(cfg, row, log, starts, made) && x < |log| && log[x].status == WorkflowTypes.Completed
    ensures cfg.admits(log[x].results)
  {
    assert Workflow.StateOk(cfg, log[x]);
  }

  /** The results of a completed run are always served, and as an outcome. */
  lemma CompletedIsServed(cfg: Workflow.Config, p: Plan, decode: nat -> Hop, row: WorkflowTypes.State, log: seq<WorkflowTypes.State>, starts: seq<nat>, made: map<nat, nat>)
    requires Runs(cfg, p, decode) && Workflow.Kept(cfg, row, log, starts, made) && row.status == WorkflowTypes.Completed
    ensures var completed := Decode(decode, row.results);
      ReceiptsOf(p, completed).Some? && |completed| > 0 && (FinishedOf(p, completed) == Some(false) ==> |completed| == p.maxHandoffs + 1)
  {
    hide Workflow.StateOk, Runs;
    CompletedIsOutcome(cfg, p, decode, row, log, starts, made, |log| - 1);
  }

  /** Whatever `run` returns is an outcome: of a walk from the root, ended or at its limit. */
  method Run(cfg: Workflow.Config, p: Plan, decode: nat -> Hop, j: WorkflowTypes.Journal, early: bool, verdicts: Workflow.Verdicts)
    returns (out: WorkflowTypes.Outcome, r: Option<Result>)
    requires Runs(cfg, p, decode) && Workflow.Kept(cfg, j.row, j.log, j.starts, j.made)
    modifies j
    ensures Workflow.Kept(cfg, j.row, j.log, j.starts, j.made) && (r.Some? <==> out.Returned?)
    ensures r.Some? ==> IsOutcome(p, r.value) && ReceiptsOf(p, Decode(decode, out.results)) == Some(r.value.hops)
  {
    hide Workflow.Kept, IsOutcome, ReceiptsOf, FinishedOf, Workflow.Starts;
    r := None;
    out := Workflow.Run(cfg, j, early, verdicts);
    if out.Returned? {
      CompletedIsServed(cfg, p, decode, j.row, j.log, j.starts, j.made);
      r := ResultOf(p, Decode(decode, out.results));
    }
  }

  /** So is whatever `read_result` returns. */
  method ReadResult(cfg: Workflow.Config, p: Plan, decode: nat -> Hop, j: WorkflowTypes.Journal, verdict: WorkflowTypes.Verdict)
    returns (out: WorkflowTypes.Outcome, r: Option<Result>)
    requires Runs(cfg, p, decode) && Workflow.Kept(cfg, j.row, j.log, j.starts, j.made)
    modifies j
    ensures Workflow.Kept(cfg, j.row, j.log, j.starts, j.made) && j.starts == old(j.starts) && (r.Some? <==> out.Returned?)
    ensures r.Some? ==> IsOutcome(p, r.value) && ReceiptsOf(p, Decode(decode, out.results)) == Some(r.value.hops)
  {
    hide Workflow.Kept, IsOutcome, ReceiptsOf, FinishedOf;
    r := None;
    out := Workflow.ReadResult(cfg, j, verdict);
    if out.Returned? {
      CompletedIsServed(cfg, p, decode, j.row, j.log, j.starts, j.made);
      r := ResultOf(p, Decode(decode, out.results));
    }
  }

  lemma WholeResults(cfg: Workflow.Config, row: WorkflowTypes.State, log: seq<WorkflowTypes.State>, starts: seq<nat>, made: map<nat, nat>, x: nat)
    requires Workflow.Kept(cfg, row, log, starts, made) && x < |log|
    ensures |log[x].results| <= |cfg.steps| && Workflow.Restrict(cfg, log[x].results, |log[x].results|) == log[x].results
  {
    assert Workflow.StateOk(cfg, log[x]);
    Workflow.WholePrefix(cfg, log[x].results);
  }

  lemma NothingFinished(p: Plan, decode: nat -> Hop)
    ensures FinishedOf(p, Decode(decode, map[])) == Some(false)
  {
    assert Chain(map[]) == [];
  }
}
