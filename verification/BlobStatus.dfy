/**
 * What each step makes of a generation, exactly: its status, the object
 * version on record for it, and its stored bytes; and that whoever finds an
 * unwanted generation can always finish cleaning it up.
 */
module BlobStatus {
  import opened Prelude
  import opened BlobTypes
  import opened BlobProtocol
  import opened BlobLifecycle
  import opened BlobInvariants
  import opened BlobRuns

  // ----- Steps on one generation -----

  /** Where a step on a generation takes it; None where it leaves it. */
  function Destination(l: Life, a: BytesAction): Option<Status>
  {
    match a
    case NewUpload(_, _, _) => Some(Uploading)
    case Dispose(_) => Some(Deleting)
    case Fence(_, _, _) => Some(Fenced)
    case Acknowledge(_) => Some(Gone)
    case _ => None
  }

  /** A new upload, a disposal, a fence and an acknowledgement each have their own status; nothing else changes any. */
  lemma StepStatus(l: Life, a: BytesAction, g: Gen)
    requires LifeOk(l) && BytesEnabled(l, a) && Guarded(l, a)
    ensures StatusOf(BytesApply(l, a), g) ==
      if Subject(l, a) == Some(g) && Destination(l, a).Some? then Destination(l, a).value else StatusOf(l, g)
  {
    var m := BytesApply(l, a);
    BytesOk(l, a);
    assert GenOk(l, g) && GenOk(m, g);
    if Subject(l, a) != Some(g) {
      BytesElsewhere(l, a, g);
      SameStatus(l, m, g);
    } else if HasIntent(m, g) {
      var sp: Space :| (sp, g) in m.intents;
      StatusByIntent(m, g, sp);
      if (sp, g) in l.intents { StatusByIntent(l, g, sp); }
    } else if HasIntent(l, g) {
      var sp: Space :| (sp, g) in l.intents;
      StatusByIntent(l, g, sp);
      AcknowledgedLast(l, a, g);
    }
  }

  /** An acknowledged generation was no root's, and has been drawn. */
  lemma AcknowledgedLast(l: Life, a: BytesAction, g: Gen)
    requires LifeOk(l) && BytesEnabled(l, a) && Subject(l, a) == Some(g) && HasIntent(l, g)
    ensures g in l.gens && !Published(l, g)
  {
    var sp: Space :| (sp, g) in l.intents;
    assert GenOk(l, g) && IntentOk(l, g, sp);
  }

  /** Bytes are stored by the upload of their generation and removed by a cleaner of it, and by nothing else. */
  lemma StepObjects(l: Life, a: BytesAction, g: Gen)
    requires BytesEnabled(l, a)
    ensures g in BytesApply(l, a).objects <==>
      if a == PutObject(g) then true else g in l.objects && !(a.DeleteObject? && l.sweeps[a.t].gen == g)
  {}

  // ----- Object versions -----

  /** The object version on record for a generation, with its root or with its intent. */
  ghost function VersionOf(l: Life, g: Gen): Option<Option<nat>>
  {
    if Published(l, g) then Some(l.roots[l.gens[g]].data.version)
    else if HasIntent(l, g) then
      var sp: Space :| (sp, g) in l.intents;
      Some(l.intents[(sp, g)].data.version)
    else None
  }

  lemma VersionByIntent(l: Life, g: Gen, sp: Space)
    requires GenOk(l, g) && (sp, g) in l.intents
    ensures VersionOf(l, g) == Some(l.intents[(sp, g)].data.version)
  {
    assert IntentOk(l, g, sp);
  }

  lemma SameVersion(l: Life, m: Life, g: Gen)
    requires GenOk(l, g) && GenOk(m, g) && SameGen(l, m, g) && (Published(l, g) <==> Published(m, g))
    requires Published(l, g) ==> m.roots[m.gens[g]].data.version == l.roots[l.gens[g]].data.version
    ensures VersionOf(m, g) == VersionOf(l, g)
  {
    SameIntents(l, m, g);
    if HasIntent(l, g) {
      var sp: Space :| (sp, g) in l.intents;
      assert Lookup(l.intents, (sp, g)) == Lookup(m.intents, (sp, g));
      VersionByIntent(l, g, sp);
      VersionByIntent(m, g, sp);
    }
  }

  lemma SameIntents(l: Life, m: Life, g: Gen)
    requires SameGen(l, m, g)
    ensures HasIntent(l, g) <==> HasIntent(m, g)
  {
    forall sp: Space ensures (sp, g) in l.intents <==> (sp, g) in m.intents {
      assert Lookup(l.intents, (sp, g)) == Lookup(m.intents, (sp, g));
    }
  }

  /** Only the uploader that has a version writes one; disposal and fence keep it for whoever deletes the object. */
  lemma StepVersion(l: Life, a: BytesAction, g: Gen)
    requires LifeOk(l) && BytesEnabled(l, a) && Guarded(l, a)
    ensures VersionOf(BytesApply(l, a), g) ==
      if Subject(l, a) != Some(g) then VersionOf(l, g)
      else if a.NewUpload? then Some(None)
      else if a.RecordVersion? then Some(a.version)
      else if a.Acknowledge? then None
      else VersionOf(l, g)
  {
    var m := BytesApply(l, a);
    BytesOk(l, a);
    assert GenOk(l, g) && GenOk(m, g);
    if Subject(l, a) != Some(g) {
      BytesElsewhere(l, a, g);
      SameVersion(l, m, g);
    } else if HasIntent(m, g) {
      var sp: Space :| (sp, g) in m.intents;
      VersionByIntent(m, g, sp);
      if (sp, g) in l.intents { VersionByIntent(l, g, sp); }
    } else if HasIntent(l, g) {
      var sp: Space :| (sp, g) in l.intents;
      VersionByIntent(l, g, sp);
      AcknowledgedLast(l, a, g);
    }
  }

  // ----- Publication and release -----

  /** A published generation is live, with the version its intent had; every other one is as before. */
  lemma PublishExactly(l: Life, g: Gen, sp: Space, h: Gen)
    requires LifeOk(l) && PublishReady(l, g, sp)
    ensures var m := PublishLife(l, g, sp, l.intents[(sp, g)].data.version);
      && StatusOf(l, g) == Uploading && StatusOf(m, g) == Live && VersionOf(m, g) == VersionOf(l, g)
      && (h != g ==> StatusOf(m, h) == StatusOf(l, h) && VersionOf(m, h) == VersionOf(l, h))
  {
    var m := PublishLife(l, g, sp, l.intents[(sp, g)].data.version);
    PublishOk(l, g, sp, l.intents[(sp, g)].data.version);
    assert GenOk(l, g) && GenOk(l, h) && GenOk(m, h);
    StatusByIntent(l, g, sp);
    VersionByIntent(l, g, sp);
    if h != g {
      SameStatus(l, m, h);
      SameVersion(l, m, h);
    }
  }

  /** A root given up leaves its generation to be deleted, in the version it had; every other one is as before. */
  lemma GiveUpExactly(l: Life, sp: Space, att: Att, h: Gen)
    requires LifeOk(l) && att in l.roots
    ensures var m, g := GiveUpLife(l, sp, att), l.roots[att].data.generation;
      && StatusOf(l, g) == Live && StatusOf(m, g) == Deleting && VersionOf(m, g) == VersionOf(l, g)
      && (h != g ==> StatusOf(m, h) == StatusOf(l, h) && VersionOf(m, h) == VersionOf(l, h))
  {
    var m, g := GiveUpLife(l, sp, att), l.roots[att].data.generation;
    GiveUpOk(l, sp, att);
    assert GenOk(l, h) && GenOk(m, h) && GenOk(m, g) && (sp, g) in m.intents;
    StatusByIntent(m, g, sp);
    VersionByIntent(m, g, sp);
    if h != g {
      SameStatus(l, m, h);
      SameVersion(l, m, h);
    }
  }

  /** Collected generations are gone, if they were still to be deleted; every other one is as before. */
  lemma CollectExactly(l: Life, sp: Space, gens: set<Gen>, h: Gen)
    requires LifeOk(l) && forall g :: g in gens ==> Swept(l, sp, g)
    ensures StatusOf(CollectLife(l, sp, gens), h) == if h in gens && (sp, h) in l.intents then Gone else StatusOf(l, h)
    ensures h in gens && (sp, h) in l.intents ==> StatusOf(l, h) == Deleting && h !in l.objects
  {
    var m := CollectLife(l, sp, gens);
    CollectOk(l, sp, gens);
    assert GenOk(l, h) && GenOk(m, h);
    if h in gens && (sp, h) in l.intents {
      assert Swept(l, sp, h) && IntentOk(l, h, sp);
      StatusByIntent(l, h, sp);
      assert !HasIntent(m, h);
      var t :| t in l.sweeps && l.sweeps[t] == Sweep(sp, h, l.intents[(sp, h)], Acking);
      assert SweepOk(l, l.sweeps[t]);
    } else {
      forall other: Space ensures Lookup(l.intents, (other, h)) == Lookup(m.intents, (other, h)) {}
      assert SameGen(l, m, h);
      SameStatus(l, m, h);
    }
  }

  // ----- Cleaning up -----

  ghost predicate CanTake(l: Life, steps: seq<BytesAction>)
    decreases |steps|
  {
    steps != [] ==> BytesEnabled(l, steps[0]) && Guarded(l, steps[0]) && CanTake(BytesApply(l, steps[0]), steps[1..])
  }

  ghost function Taken(l: Life, steps: seq<BytesAction>): Life
    requires CanTake(l, steps)
    decreases |steps|
  {
    if steps == [] then l else Taken(BytesApply(l, steps[0]), steps[1..])
  }

  /** What a cleaner does about a generation that has an intent to delete it. */
  function Cleaning(t: nat, sp: Space, g: Gen): seq<BytesAction> { [StartSweep(t, sp, g), CheckRoot(t), DeleteObject(t), Acknowledge(t)] }

  lemma TakeOne(l: Life, a: BytesAction, rest: seq<BytesAction>)
    requires BytesEnabled(l, a) && Guarded(l, a) && CanTake(BytesApply(l, a), rest)
    ensures CanTake(l, [a] + rest) && Taken(l, [a] + rest) == Taken(BytesApply(l, a), rest)
  {
    assert ([a] + rest)[1..] == rest;
  }

  ghost predicate Allows(l: Life, a: BytesAction) { BytesEnabled(l, a) && Guarded(l, a) }

  lemma TakeFour(l: Life, a: BytesAction, b: BytesAction, c: BytesAction, d: BytesAction)
    requires Allows(l, a) && Allows(BytesApply(l, a), b) && Allows(BytesApply(BytesApply(l, a), b), c)
    requires Allows(BytesApply(BytesApply(BytesApply(l, a), b), c), d)
    ensures CanTake(l, [a, b, c, d])
    ensures Taken(l, [a, b, c, d]) == BytesApply(BytesApply(BytesApply(BytesApply(l, a), b), c), d)
  {
    hide BytesEnabled, BytesApply, Guarded;
    var one := BytesApply(l, a);
    var two := BytesApply(one, b);
    var three := BytesApply(two, c);
    TakeOne(three, d, []);
    assert [d] + [] == [d];
    TakeOne(two, c, [d]);
    assert [c] + [d] == [c, d];
    TakeOne(one, b, [c, d]);
    assert [b] + [c, d] == [b, c, d];
    TakeOne(l, a, [b, c, d]);
    assert [a] + [b, c, d] == [a, b, c, d];
  }

  lemma FourOk(l: Life, a: BytesAction, b: BytesAction, c: BytesAction, d: BytesAction)
    requires LifeOk(l) && Allows(l, a) && Allows(BytesApply(l, a), b) && Allows(BytesApply(BytesApply(l, a), b), c)
    requires Allows(BytesApply(BytesApply(BytesApply(l, a), b), c), d)
    ensures LifeOk(BytesApply(BytesApply(BytesApply(BytesApply(l, a), b), c), d))
  {
    hide LifeOk, BytesEnabled, BytesApply, Guarded;
    BytesOk(l, a);
    BytesOk(BytesApply(l, a), b);
    BytesOk(BytesApply(BytesApply(l, a), b), c);
    BytesOk(BytesApply(BytesApply(BytesApply(l, a), b), c), d);
  }

  lemma CleaningSteps(l: Life, t: nat, sp: Space, g: Gen)
    requires LifeOk(l) && t !in l.sweeps && (sp, g) in l.intents && l.intents[(sp, g)].data.kind == Delete
    ensures Allows(l, StartSweep(t, sp, g))
    ensures var one := BytesApply(l, StartSweep(t, sp, g));
      Allows(one, CheckRoot(t)) && Allows(BytesApply(one, CheckRoot(t)), DeleteObject(t))
      && Allows(BytesApply(BytesApply(one, CheckRoot(t)), DeleteObject(t)), Acknowledge(t))
    ensures var m := BytesApply(BytesApply(BytesApply(BytesApply(l, StartSweep(t, sp, g)), CheckRoot(t)), DeleteObject(t)), Acknowledge(t));
      m.roots == l.roots && m.gens == l.gens && m.intents == l.intents - {(sp, g)} && g !in m.objects
  {
    hide LifeOk;
    BytesOk(l, StartSweep(t, sp, g));
    GuardNeverFires(BytesApply(l, StartSweep(t, sp, g)), t);
  }

  /** A generation to be deleted can be cleaned up by anybody, and is then gone without a trace. */
  lemma CleansUp(l: Life, t: nat, sp: Space, g: Gen)
    requires LifeOk(l) && t !in l.sweeps && (sp, g) in l.intents && l.intents[(sp, g)].data.kind == Delete
    ensures CanTake(l, Cleaning(t, sp, g))
    ensures var m := Taken(l, Cleaning(t, sp, g)); LifeOk(m) && g !in m.objects && !HasIntent(m, g) && StatusOf(m, g) == Gone
  {
    hide CanTake, Taken, BytesApply, BytesEnabled, Guarded;
    CleaningSteps(l, t, sp, g);
    TakeFour(l, StartSweep(t, sp, g), CheckRoot(t), DeleteObject(t), Acknowledge(t));
    FourOk(l, StartSweep(t, sp, g), CheckRoot(t), DeleteObject(t), Acknowledge(t));
    var m := Taken(l, Cleaning(t, sp, g));
    assert m.roots == l.roots && m.gens == l.gens && m.intents == l.intents - {(sp, g)} && g !in m.objects;
    Unpublished(l, m, sp, g);
  }

  lemma Unpublished(l: Life, m: Life, sp: Space, g: Gen)
    requires LifeOk(l) && (sp, g) in l.intents && m.roots == l.roots && m.gens == l.gens && m.intents == l.intents - {(sp, g)}
    ensures !HasIntent(m, g) && StatusOf(m, g) == Gone
  {
    assert GenOk(l, g) && IntentOk(l, g, sp);
  }

  /** An upload that was not needed, once disposed of, can be cleaned up like that. */
  lemma DisposedCleansUp(l: Life, t: nat, g: Gen)
    requires LifeOk(l) && BytesEnabled(l, Dispose(g)) && t !in l.sweeps
    ensures var sp, m := l.uploaders[g].space, BytesApply(l, Dispose(g));
      && StatusOf(m, g) == Deleting && CanTake(m, Cleaning(t, sp, g))
      && var n := Taken(m, Cleaning(t, sp, g)); g !in n.objects && !HasIntent(n, g) && StatusOf(n, g) == Gone
  {
    hide LifeOk, CanTake, Taken, StatusOf;
    BytesOk(l, Dispose(g));
    StepStatus(l, Dispose(g), g);
    CleansUp(BytesApply(l, Dispose(g)), t, l.uploaders[g].space, g);
  }

  /** What recovery does about an upload nobody finished. */
  function Recovering(t: nat, sp: Space, g: Gen): seq<BytesAction> { [Fence(t, sp, g), Refresh(t), CheckRoot(t), DeleteObject(t)] }

  lemma RecoverySteps(l: Life, t: nat, sp: Space, g: Gen)
    requires LifeOk(l) && BytesEnabled(l, Fence(t, sp, g))
    ensures Allows(l, Fence(t, sp, g))
    ensures var one := BytesApply(l, Fence(t, sp, g));
      Allows(one, Refresh(t)) && Allows(BytesApply(one, Refresh(t)), CheckRoot(t))
      && Allows(BytesApply(BytesApply(one, Refresh(t)), CheckRoot(t)), DeleteObject(t))
    ensures var m := BytesApply(BytesApply(BytesApply(BytesApply(l, Fence(t, sp, g)), Refresh(t)), CheckRoot(t)), DeleteObject(t));
      (sp, g) in m.intents && m.intents[(sp, g)].data.kind == Abandoned && g !in m.objects
  {
    hide LifeOk;
    var one := BytesApply(l, Fence(t, sp, g));
    BytesOk(l, Fence(t, sp, g));
    BytesOk(one, Refresh(t));
    GuardNeverFires(BytesApply(one, Refresh(t)), t);
  }

  /** Recovery can always fence such an upload and remove its object; the fence stays, should the upload still be sent. */
  lemma RecoversUpload(l: Life, t: nat, sp: Space, g: Gen)
    requires LifeOk(l) && BytesEnabled(l, Fence(t, sp, g))
    ensures CanTake(l, Recovering(t, sp, g))
    ensures var m := Taken(l, Recovering(t, sp, g)); LifeOk(m) && g !in m.objects && StatusOf(m, g) == Fenced
  {
    hide CanTake, Taken, BytesApply, BytesEnabled, Guarded;
    RecoverySteps(l, t, sp, g);
    TakeFour(l, Fence(t, sp, g), Refresh(t), CheckRoot(t), DeleteObject(t));
    FourOk(l, Fence(t, sp, g), Refresh(t), CheckRoot(t), DeleteObject(t));
    var m := Taken(l, Recovering(t, sp, g));
    assert GenOk(m, g);
    StatusByIntent(m, g, sp);
  }
}
