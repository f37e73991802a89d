/**
 * A client that is left alone gets through: from any reachable state it can
 * migrate its space, put, link, and release, whatever others have left behind.
 */
module BlobAlone {
  import opened Prelude
  import opened BlobTypes
  import opened EpisodeCatalog
  import opened BlobProtocol
  import opened BlobLifecycle
  import opened BlobInvariants
  import opened BlobRuns
  import opened BlobStatus
  import opened BlobHelp

  /** A guarded run from a state that the invariant holds of, and where it leads. */
  ghost predicate Leads(s: Sys, run: seq<Action>, n: Sys)
  {
    Valid(s, run) && AllGuarded(s, run) && After(s, run) == n && Inv(n)
  }

  lemma LeadsNowhere(s: Sys)
    requires Inv(s)
    ensures Leads(s, [], s)
  {}

  lemma LeadsOn(s: Sys, run: seq<Action>, n: Sys, a: Action)
    requires Leads(s, run, n) && Enabled(n, a) && GuardedStep(n, a)
    ensures Leads(s, run + [a], Apply(n, a))
  {
    hide Inv, Valid, After, AllGuarded, Enabled, Apply, GuardedStep;
    RunOne(n, a);
    RunMore(s, run, [a]);
    StepInv(n, a);
  }

  lemma LeadsFarther(s: Sys, run: seq<Action>, n: Sys, more: seq<Action>, m: Sys)
    requires Leads(s, run, n) && Leads(n, more, m)
    ensures Leads(s, run + more, m)
  {
    hide Inv, Valid, After, AllGuarded;
    RunMore(s, run, more);
  }

  /** The space is migrated, and nothing is under way in it. */
  predicate AtRest(ss: SpaceState) { ss.control.Some? && ss.Data().mode == Active && ss.Data().version == 1 }

  lemma Finished(s: Sys, sp: Space) returns (run: seq<Action>, n: Sys)
    requires Inv(s) && s.At(sp).control.Some?
    ensures Leads(s, run, n) && n.At(sp).control.Some? && n.At(sp).Data().mode == Active
    ensures GoesOn(s.At(sp), n.At(sp)) && (s.At(sp).Data().mode == Active ==> n == s)
  {
    hide Inv, Valid, After, AllGuarded, GoesOn;
    run := Finishes(s, sp);
    n := After(s, run);
    if run == [] { NoRun(s); }
    RunInv(s, run);
  }

  /** `ensure`: a client can bring any space to rest, migrated, from whatever it is in the middle of. */
  lemma Ensures(s: Sys, sp: Space) returns (run: seq<Action>, n: Sys)
    requires Inv(s)
    ensures Leads(s, run, n) && AtRest(n.At(sp)) && (!Releasing(s.At(sp).Data()) ==> n.At(sp).holds == s.At(sp).holds)
  {
    hide Inv, Leads, Apply, Enabled;
    if s.At(sp).control.None? {
      LeadsNowhere(s);
      Creates(s, sp);
      LeadsOn(s, [], s, Catalog(CreateControl(sp)));
      return [] + [Catalog(CreateControl(sp))], Apply(s, Catalog(CreateControl(sp)));
    }
    run, n := Finished(s, sp);
    LeadsInv(s, run, n);
    if n.At(sp).Data().version != 1 {
      assert n.At(sp).Data().version == 0 by { InvSpace(n, sp); }
      Migrates(n, sp);
      LeadsOn(s, run, n, Catalog(StartMigration(sp)));
      var m := Apply(n, Catalog(StartMigration(sp)));
      LeadsInv(s, run + [Catalog(StartMigration(sp))], m);
      var more, end := Finished(m, sp);
      LeadsFarther(s, run + [Catalog(StartMigration(sp))], m, more, end);
      run, n := run + [Catalog(StartMigration(sp))] + more, end;
    }
  }

  lemma LeadsInv(s: Sys, run: seq<Action>, n: Sys)
    requires Leads(s, run, n)
    ensures Inv(n)
  {}

  lemma Creates(s: Sys, sp: Space)
    requires s.At(sp).control.None?
    ensures Enabled(s, Catalog(CreateControl(sp))) && GuardedStep(s, Catalog(CreateControl(sp)))
    ensures var n := Apply(s, Catalog(CreateControl(sp))); AtRest(n.At(sp)) && n.At(sp).holds == s.At(sp).holds
  {}

  lemma Migrates(s: Sys, sp: Space)
    requires s.At(sp).control.Some? && s.At(sp).Data().mode == Active && s.At(sp).Data().version == 0
    ensures Enabled(s, Catalog(StartMigration(sp))) && GuardedStep(s, Catalog(StartMigration(sp)))
    ensures var m := Apply(s, Catalog(StartMigration(sp)));
      m.At(sp).control.Some? && m.At(sp).Data().mode == Mode.Migrate && m.At(sp).holds == s.At(sp).holds
  {}

  // ----- Put -----

  /** The five steps of an upload, and what they leave. */
  function Uploading(sp: Space, g: Gen, att: Att, version: Option<nat>): seq<BytesAction>
  {
    [NewUpload(sp, g, att), ReadBack(g), PutObject(g), RecordVersion(g, version), Reread(g)]
  }

  lemma UploadSteps(l: Life, sp: Space, g: Gen, att: Att, version: Option<nat>)
    requires g !in l.gens && (sp, g) !in l.intents
    ensures var a := Uploading(sp, g, att, version);
      && Allows(l, a[0]) && Allows(BytesApply(l, a[0]), a[1]) && Allows(BytesApply(BytesApply(l, a[0]), a[1]), a[2])
      && Allows(BytesApply(BytesApply(BytesApply(l, a[0]), a[1]), a[2]), a[3])
      && Allows(BytesApply(BytesApply(BytesApply(BytesApply(l, a[0]), a[1]), a[2]), a[3]), a[4])
      && Uploaded(l, BytesApply(BytesApply(BytesApply(BytesApply(BytesApply(l, a[0]), a[1]), a[2]), a[3]), a[4]), sp, g, att, version)
  {}

  /** The bytes are stored under a new generation, with its object version on record and known to its uploader. */
  ghost predicate Uploaded(l: Life, m: Life, sp: Space, g: Gen, att: Att, version: Option<nat>)
  {
    && m.roots == l.roots && m.gens == l.gens[g := att] && g in m.objects
    && (sp, g) in m.intents && m.intents[(sp, g)].data == Intent(Upload, att, version)
    && g in m.uploaders && m.uploaders[g] == Uploader(sp, Resting(Some(m.intents[(sp, g)])))
  }

  lemma BytesOn(s: Sys, run: seq<Action>, n: Sys, b: BytesAction) returns (m: Sys)
    requires Leads(s, run, n) && Allows(n.life, b)
    ensures Leads(s, run + [Bytes(b)], m) && m == n.(life := BytesApply(n.life, b))
  {
    hide Inv, Leads, BytesEnabled, BytesApply, Guarded;
    LeadsOn(s, run, n, Bytes(b));
    m := Apply(n, Bytes(b));
  }

  lemma Uploads(s: Sys, sp: Space, att: Att, version: Option<nat>) returns (g: Gen, run: seq<Action>, n: Sys)
    requires Inv(s)
    ensures Leads(s, run, n) && n == s.(life := n.life) && Uploaded(s.life, n.life, sp, g, att, version) && g !in s.life.gens
  {
    hide Leads, Inv, BytesApply, Allows, Uploaded;
    g := Above(s.life.gens.Keys);
    assert g !in s.life.gens;
    NewName(s, sp, g);
    UploadSteps(s.life, sp, g, att, version);
    var a := Uploading(sp, g, att, version);
    LeadsNowhere(s);
    var one := BytesOn(s, [], s, a[0]);
    run := [] + [Bytes(a[0])];
    var two := BytesOn(s, run, one, a[1]);
    run := run + [Bytes(a[1])];
    var three := BytesOn(s, run, two, a[2]);
    run := run + [Bytes(a[2])];
    var four := BytesOn(s, run, three, a[3]);
    run := run + [Bytes(a[3])];
    n := BytesOn(s, run, four, a[4]);
    run := run + [Bytes(a[4])];
  }

  /** An upload that was not needed can be disposed of and cleaned up, and leaves no trace but its name. */
  lemma UploadsInVain(s: Sys, sp: Space, att: Att, version: Option<nat>) returns (g: Gen, run: seq<Action>, n: Sys)
    requires Inv(s)
    ensures Leads(s, run, n) && n == s.(life := n.life) && g !in s.life.gens
    ensures n.life.roots == s.life.roots && n.life.gens == s.life.gens[g := att] && g !in n.life.objects && !HasIntent(n.life, g)
  {
    hide Leads, Inv, BytesApply, Allows, HasIntent, CanTake, BlobStatus.Taken, LifeOk, BytesEnabled, Uploaded;
    var m: Sys;
    g, run, m := Uploads(s, sp, att, version);
    UploadIsNew(s, m, sp, g, att, version);
    assert LifeOk(m.life) by { LeadsInv(s, run, m); InvLife(m); }
    Disposable(s.life, m.life, sp, g, att, version);
    var t := Above(m.life.sweeps.Keys);
    assert t !in m.life.sweeps;
    DisposedCleansUp(m.life, t, g);
    var one := BytesOn(s, run, m, Dispose(g));
    run := run + [Bytes(Dispose(g))];
    var steps := Cleaning(t, sp, g);
    var more: seq<Action>;
    CleaningKeeps(one.life, steps);
    more, n := TakesAll(s, run, one, steps);
    run := more;
  }

  lemma UploadIsNew(s: Sys, m: Sys, sp: Space, g: Gen, att: Att, version: Option<nat>)
    requires Uploaded(s.life, m.life, sp, g, att, version)
    ensures m.life.roots == s.life.roots && m.life.gens == s.life.gens[g := att]
  {}

  lemma Disposable(l: Life, m: Life, sp: Space, g: Gen, att: Att, version: Option<nat>)
    requires Uploaded(l, m, sp, g, att, version)
    ensures BytesEnabled(m, Dispose(g)) && Allows(m, Dispose(g)) && m.uploaders[g].space == sp
    ensures BytesApply(m, Dispose(g)).roots == m.roots && BytesApply(m, Dispose(g)).gens == m.gens
  {}

  /** Steps on bytes, none of which draws a generation, change no root and draw none. */
  lemma {:induction false} CleaningKeeps(l: Life, steps: seq<BytesAction>)
    requires CanTake(l, steps) && forall i :: 0 <= i < |steps| ==> !steps[i].NewUpload?
    ensures BlobStatus.Taken(l, steps).roots == l.roots && BlobStatus.Taken(l, steps).gens == l.gens
    decreases |steps|
  {
    if steps != [] { CleaningKeeps(BytesApply(l, steps[0]), steps[1..]); }
  }

  lemma {:induction false} TakesAll(s: Sys, run: seq<Action>, n: Sys, steps: seq<BytesAction>) returns (all: seq<Action>, m: Sys)
    requires Leads(s, run, n) && CanTake(n.life, steps)
    ensures Leads(s, all, m) && m == n.(life := BlobStatus.Taken(n.life, steps))
    decreases |steps|
  {
    hide Leads, Inv, BytesApply, BytesEnabled, Guarded;
    if steps == [] {
      all, m := run, n;
    } else {
      var one := BytesOn(s, run, n, steps[0]);
      all, m := TakesAll(s, run + [Bytes(steps[0])], one, steps[1..]);
    }
  }

  lemma NewName(s: Sys, sp: Space, g: Gen)
    requires Inv(s) && g !in s.life.gens
    ensures (sp, g) !in s.life.intents
  {
    assert LifeOk(s.life);
    assert GenOk(s.life, g);
  }

  /** What a put has to leave: a hold under the generation of the root, with the attachment that was first. */
  ghost predicate Held(s: Sys, n: Sys, sp: Space, attachment: Attachment)
  {
    var att := attachment.id;
    && att in n.At(sp).holds && att in n.life.roots && n.life.roots[att].data.generation in n.life.objects
    && n.At(sp).holds[att].data.generation == n.life.roots[att].data.generation
    && n.At(sp).holds[att].data.attachment == (if att in s.At(sp).holds then s.At(sp).holds[att].data.attachment else attachment)
    && (att in s.life.roots ==> n.life.roots[att].data.generation == s.life.roots[att].data.generation)
  }

  /** A put of anything, by a client left alone, in a space at rest. */
  lemma Puts(s: Sys, sp: Space, attachment: Attachment, version: Option<nat>) returns (run: seq<Action>, n: Sys)
    requires Inv(s) && AtRest(s.At(sp))
    ensures Leads(s, run, n) && AtRest(n.At(sp)) && Held(s, n, sp, attachment)
    ensures attachment.id !in s.life.roots ==> n.life.roots[attachment.id].data == Root(n.life.roots[attachment.id].data.generation, version, 1)
  {
    hide Inv, Leads, Enabled, Apply, Held;
    LeadsNowhere(s);
    run, n := [], s;
    if attachment.id in s.At(sp).holds {
      Rooted(s, sp, attachment.id);
      HeldAlready(s, sp, attachment);
    } else if attachment.id in s.life.roots {
      Joins(s, sp, attachment);
      LeadsOn(s, [], s, Catalog(Join(sp, attachment)));
      run, n := [] + [Catalog(Join(sp, attachment))], Apply(s, Catalog(Join(sp, attachment)));
      LeadsInv(s, run, n);
      Rooted(n, sp, attachment.id);
      HeldNow(s, n, sp, attachment);
    } else {
      var g: Gen, m: Sys;
      g, run, m := Uploads(s, sp, attachment.id, version);
      LeadsInv(s, run, m);
      Publishes(s, m, sp, g, attachment, version);
      LeadsOn(s, run, m, Catalog(CatalogAction.Publish(g, attachment)));
      run, n := run + [Catalog(CatalogAction.Publish(g, attachment))], Apply(m, Catalog(CatalogAction.Publish(g, attachment)));
      LeadsInv(s, run, n);
      Rooted(n, sp, attachment.id);
      HeldNow(s, n, sp, attachment);
    }
  }

  lemma Rooted(s: Sys, sp: Space, att: Att)
    requires Inv(s) && att in s.At(sp).holds
    ensures att in s.life.roots && s.life.roots[att].data.generation in s.life.objects
    ensures s.At(sp).holds[att].data.generation == s.life.roots[att].data.generation
  {
    InvDurable(s);
    assert sp in s.spaces;
  }

  lemma HeldAlready(s: Sys, sp: Space, attachment: Attachment)
    requires attachment.id in s.At(sp).holds && attachment.id in s.life.roots
    requires s.life.roots[attachment.id].data.generation in s.life.objects
    requires s.At(sp).holds[attachment.id].data.generation == s.life.roots[attachment.id].data.generation
    ensures Held(s, s, sp, attachment)
  {}

  lemma HeldNow(s: Sys, n: Sys, sp: Space, attachment: Attachment)
    requires attachment.id !in s.At(sp).holds && attachment.id in n.At(sp).holds && attachment.id in n.life.roots
    requires n.life.roots[attachment.id].data.generation in n.life.objects
    requires n.At(sp).holds[attachment.id].data.generation == n.life.roots[attachment.id].data.generation
    requires n.At(sp).holds[attachment.id].data.attachment == attachment
    requires attachment.id in s.life.roots ==> n.life.roots[attachment.id].data.generation == s.life.roots[attachment.id].data.generation
    ensures Held(s, n, sp, attachment)
  {}

  lemma Joins(s: Sys, sp: Space, attachment: Attachment)
    requires AtRest(s.At(sp)) && attachment.id !in s.At(sp).holds && attachment.id in s.life.roots
    ensures Enabled(s, Catalog(Join(sp, attachment))) && GuardedStep(s, Catalog(Join(sp, attachment)))
    ensures var n := Apply(s, Catalog(Join(sp, attachment)));
      && AtRest(n.At(sp)) && attachment.id in n.At(sp).holds && n.At(sp).holds[attachment.id].data.attachment == attachment
      && attachment.id in n.life.roots && n.life.roots[attachment.id].data.generation == s.life.roots[attachment.id].data.generation
  {}

  lemma Publishes(s: Sys, m: Sys, sp: Space, g: Gen, attachment: Attachment, version: Option<nat>)
    requires AtRest(s.At(sp)) && attachment.id !in s.At(sp).holds && attachment.id !in s.life.roots
    requires m == s.(life := m.life) && Uploaded(s.life, m.life, sp, g, attachment.id, version)
    ensures var a := Catalog(CatalogAction.Publish(g, attachment));
      && Enabled(m, a) && GuardedStep(m, a)
      && var n := Apply(m, a);
      && AtRest(n.At(sp)) && attachment.id in n.At(sp).holds && n.At(sp).holds[attachment.id].data.attachment == attachment
      && attachment.id in n.life.roots && n.life.roots[attachment.id].data == Root(g, version, 1)
  {}

  // ----- Link and release -----

  /** A link of what is held, below the limit. */
  lemma Links(s: Sys, sp: Space, att: Att, episode: Episode) returns (run: seq<Action>, n: Sys)
    requires Inv(s) && AtRest(s.At(sp)) && episode >= 1 && att in s.At(sp).holds && |s.At(sp).holds[att].data.links| < 1024
    ensures Leads(s, run, n) && AtRest(n.At(sp)) && att in n.At(sp).holds && episode in Episodes(n.At(sp).holds[att].data.links)
  {
    hide Inv, Leads, Enabled, Apply;
    LeadsNowhere(s);
    run, n := [], s;
    if episode !in Episodes(s.At(sp).holds[att].data.links) {
      Adds(s, sp, att, episode);
      LeadsOn(s, [], s, Catalog(AddEpisode(sp, att, episode)));
      run, n := [] + [Catalog(AddEpisode(sp, att, episode))], Apply(s, Catalog(AddEpisode(sp, att, episode)));
    }
  }

  lemma Adds(s: Sys, sp: Space, att: Att, episode: Episode)
    requires AtRest(s.At(sp)) && episode >= 1 && att in s.At(sp).holds && |s.At(sp).holds[att].data.links| < 1024
    requires episode !in Episodes(s.At(sp).holds[att].data.links)
    ensures var a := Catalog(AddEpisode(sp, att, episode));
      && Enabled(s, a) && GuardedStep(s, a)
      && var n := Apply(s, a); AtRest(n.At(sp)) && att in n.At(sp).holds && episode in Episodes(n.At(sp).holds[att].data.links)
  {
    var links := s.At(sp).holds[att].data.links;
    assert (links + [Link(episode, s.At(sp).Rev() + 1)])[|links|].episode == episode;
  }

  /** A release, of an episode or of everything, is begun under a new name and carried to its end. */
  lemma Releases(s: Sys, sp: Space, episode: Episode, op: Op) returns (run: seq<Action>, n: Sys)
    requires Inv(s) && AtRest(s.At(sp)) && op !in s.At(sp).ops
    ensures Leads(s, run, n) && AtRest(n.At(sp)) && n.At(sp).Data().operation == Some(op)
    ensures HoldData(n.At(sp)) == Rest(HoldData(s.At(sp)), if episode == 0 then Release else Unlink, episode)
  {
    hide Inv, Leads, Enabled, Apply;
    LeadsNowhere(s);
    Begins(s, sp, episode, op);
    var a := Catalog(CatalogAction.Begin(sp, episode, op));
    LeadsOn(s, [], s, a);
    var m := Apply(s, a);
    LeadsInv(s, [] + [a], m);
    var more: seq<Action>;
    more, n := Finished(m, sp);
    LeadsFarther(s, [] + [a], m, more, n);
    run := [] + [a] + more;
  }

  lemma Begins(s: Sys, sp: Space, episode: Episode, op: Op)
    requires AtRest(s.At(sp)) && op !in s.At(sp).ops
    ensures var a := Catalog(CatalogAction.Begin(sp, episode, op));
      && Enabled(s, a) && GuardedStep(s, a)
      && var m := Apply(s, a);
      && m.At(sp).control.Some? && m.At(sp).Data().operation == Some(op)
      && m.At(sp).Data().mode == (if episode == 0 then Release else Unlink) && m.At(sp).Data().episode == episode
      && m.At(sp).base == HoldData(s.At(sp))
  {}
}
